/**
 * The catwalk: a chamfered platform ringing an interior opening, with magnet
 * holes under it, L-shaped arched walls on its four corners and a diamond
 * tile walkway cut into its top.
 */
module Catwalks {
  import opened Common
  import opened Series

  datatype CatwalkParams = CatwalkParams(
    length: real, width: real, height: real, chamferDistance: real,
    interiorLength: real, interiorWidth: real, interiorHeight: real, interiorOverlap: real,
    renderMagnets: bool, magnetRadius: real, magnetHeight: real, magnetPadding: real, fitPadding: real,
    renderCornerWalls: bool, wallHeight: real, wallLength: real, wallWidth: real,
    renderFloor: bool, floorHeight: real, floorTileSize: real, floorTilePadding: real)

  function DefaultCatwalk(): CatwalkParams
  {
    CatwalkParams(
      187.0, 187.0, 4.0, 1.0,
      130.0, 130.0, 2.0, 5.0,
      true, 1.5, 2.0, 1.5, 0.4,
      true, 25.0, 55.0, 3.0,
      true, 1.0, 12.0, 2.0)
  }

  /** The ledge under the opening: as wide as the opening, interior_height thick, flush with the bottom. */
  function Ledge(p: CatwalkParams): Solid
  {
    Moved(Box(p.interiorLength + p.fitPadding, p.interiorWidth + p.fitPadding, p.interiorHeight),
          0.0, 0.0, -1.0 * (p.height / 2.0 - p.interiorHeight / 2.0))
  }

  /** The slab with the opening cut, the ledge added, and the ledge's centre cut away. */
  function PlatformSolid(p: CatwalkParams): Solid
  {
    var slab := Chamfered(Box(p.length, p.width, p.height), p.height - 0.1);
    var opening := Box(p.interiorLength + p.fitPadding, p.interiorWidth + p.fitPadding, p.height);
    var ledgeCut := Moved(Box(p.interiorLength - p.interiorOverlap * 2.0, p.interiorWidth - p.interiorOverlap * 2.0,
                              p.interiorHeight),
                          0.0, 0.0, -1.0 * (p.height / 2.0 - p.interiorHeight / 2.0));
    Difference(Fused(Difference(slab, opening), Ledge(p)), ledgeCut)
  }

  /** Four magnet holes, 0.1 wider than the magnet, at the corners of the interior. */
  function MagnetCuts(p: CatwalkParams): seq<Solid>
  {
    Corners(Cylinder(p.magnetHeight, p.magnetRadius + 0.1),
            p.interiorLength / 2.0 - p.magnetRadius - p.magnetPadding,
            p.interiorWidth / 2.0 - p.magnetRadius - p.magnetPadding,
            -1.0 * (p.height / 2.0 - p.magnetHeight / 2.0))
  }

  /**
   * The ledge and every magnet hole open on the platform's bottom face; the
   * holes are magnet_height deep, 0.1 wider in radius than the magnet, and
   * keep magnet_padding between the magnet and the interior's edges.
   */
  lemma MagnetsUnderLedge(p: CatwalkParams)
    ensures ZSpan(Ledge(p)) == Some((-p.height / 2.0, -p.height / 2.0 + p.interiorHeight))
    ensures forall h :: h in MagnetCuts(p) ==>
      ZSpan(h) == Some((-p.height / 2.0, -p.height / 2.0 + p.magnetHeight))
      && h.solid.radius == p.magnetRadius + 0.1
    ensures MagnetCuts(p)[0].dx + p.magnetRadius + p.magnetPadding == p.interiorLength / 2.0
    ensures MagnetCuts(p)[0].dy + p.magnetRadius + p.magnetPadding == p.interiorWidth / 2.0
  {
    var holes := MagnetCuts(p);
    forall h | h in holes
      ensures ZSpan(h) == Some((-p.height / 2.0, -p.height / 2.0 + p.magnetHeight))
    {
      assert h == holes[0] || h == holes[1] || h == holes[2] || h == holes[3];
    }
  }

  /** The number of arch cuts along a wall: floor(wall_length / 6). */
  function ArchCount(p: CatwalkParams): nat
  {
    Count(p.wallLength, 4.0 + 2.0)
  }

  /** The arch the per-index operation puts at copy i: shorter ones first and second, the stock arch after. */
  function ArchHeight(p: CatwalkParams, i: nat): real
  {
    if i == 0 then p.wallHeight - 12.0
    else if i == 1 then p.wallHeight - 8.0
    else p.wallHeight - 4.0
  }

  function ArchLift(i: nat): real
  {
    if i == 0 then -6.0 else if i == 1 then -4.0 else -2.0
  }

  function ArchCut(p: CatwalkParams, i: nat): Solid
  {
    Moved(SubAssembly("arch_round", 4.0, p.wallWidth, ArchHeight(p, i)), 0.0, 0.0, ArchLift(i))
  }

  /** The arch series: copy i replaced by ArchCut(i), spaced by the arch's 4 plus 2.7. */
  function ArchCuts(p: CatwalkParams): (r: seq<Solid>)
    ensures |r| == ArchCount(p)
  {
    var n := ArchCount(p);
    seq(n, i requires 0 <= i < n => Moved(ArchCut(p, i), Offset(n, i, 4.0 + 2.7), 0.0, 0.0))
  }

  /**
   * Every arch starts at the wall's bottom face; the first is 8 and the
   * second 4 lower than the rest, and all stay at least 4 below the top.
   */
  lemma ArchesStandOnWallBottom(p: CatwalkParams)
    ensures forall i :: 0 <= i < |ArchCuts(p)| ==>
      && ArchCuts(p)[i].solid.dz - ArchCuts(p)[i].solid.solid.height / 2.0 == -p.wallHeight / 2.0
      && ArchCuts(p)[i].solid.dz + ArchCuts(p)[i].solid.solid.height / 2.0 <= p.wallHeight / 2.0 - 4.0
    ensures forall i :: 2 <= i ==> ArchHeight(p, 0) + 8.0 == ArchHeight(p, 1) + 4.0 == ArchHeight(p, i)
  {
    var cuts := ArchCuts(p);
    forall i | 0 <= i < |cuts|
      ensures cuts[i].solid.dz - cuts[i].solid.solid.height / 2.0 == -p.wallHeight / 2.0
      ensures cuts[i].solid.dz + cuts[i].solid.solid.height / 2.0 <= p.wallHeight / 2.0 - 4.0
    {
      assert cuts[i].solid == ArchCut(p, i);
      assert ArchCut(p, i).dz == ArchLift(i) && ArchCut(p, i).solid.height == ArchHeight(p, i);
    }
    assert ArchHeight(p, 0) + 8.0 == ArchHeight(p, 1) + 4.0 == p.wallHeight - 4.0;
    forall i | 2 <= i
      ensures ArchHeight(p, i) == p.wallHeight - 4.0
    {
    }
  }

  /** One corner: two arched walls at right angles, standing on the platform. */
  function Corner(p: CatwalkParams): Solid
  {
    var wall := Difference(Chamfered(Box(p.wallLength, p.wallWidth, p.wallHeight), p.wallHeight / 2.0),
                           Group(ArchCuts(p)));
    var shifted := Moved(wall, -1.0 * (p.wallLength / 2.0 - p.wallWidth / 2.0), 0.0, 0.0);
    Moved(Group([shifted, Turned(shifted, 90)]), 0.0, 0.0, p.wallHeight / 2.0 + p.height / 2.0)
  }

  /** The four corners, turned 0, 90, 180 and -90 degrees. */
  function FourCorners(p: CatwalkParams): seq<Solid>
  {
    var x := p.length / 2.0 - p.wallWidth / 2.0;
    var y := -1.0 * (p.width / 2.0 - p.wallWidth / 2.0);
    var c := Corner(p);
    [Moved(c, x, y, 0.0), Moved(Turned(c, 90), -x, y, 0.0),
     Moved(Turned(c, 180), -x, -y, 0.0), Moved(Turned(c, -90), x, -y, 0.0)]
  }

  /**
   * The walls stand on the platform's top face, and every corner sits where
   * its walls' outer faces are flush with the platform's edges.
   */
  lemma CornersOnPlatformEdges(p: CatwalkParams)
    ensures Corner(p).dz - p.wallHeight / 2.0 == p.height / 2.0
    ensures forall c :: c in FourCorners(p) ==>
      (c.dx + p.wallWidth / 2.0 == p.length / 2.0 || c.dx - p.wallWidth / 2.0 == -p.length / 2.0)
      && (c.dy + p.wallWidth / 2.0 == p.width / 2.0 || c.dy - p.wallWidth / 2.0 == -p.width / 2.0)
  {
  }

  function TileStep(p: CatwalkParams): real
  {
    p.floorTileSize + p.floorTilePadding
  }

  function FloorRows(p: CatwalkParams): int
    requires TileStep(p) != 0.0
  {
    ((p.length - p.height) / TileStep(p)).Floor
  }

  function FloorColumns(p: CatwalkParams): int
    requires TileStep(p) != 0.0
  {
    ((p.width - p.height) / (TileStep(p) / 2.0)).Floor
  }

  /** The diamond grid: staggered half a step on odd columns, two rows more than fit. */
  function FloorGrid(p: CatwalkParams): Solid
    requires TileStep(p) != 0.0
  {
    TileGrid(Chamfered(Kernel("diamond"), 0.4), FloorRows(p) + 2, FloorColumns(p), TileStep(p), TileStep(p) / 2.0,
             TileStep(p) / 2.0, 0.0)
  }

  /** The diamond walkway: the tile grid, clipped to the ring between the outline and the opening, lowered by 1. */
  function FloorTilesSolid(p: CatwalkParams): Solid
    requires TileStep(p) != 0.0
  {
    var grid := FloorGrid(p);
    var outline := Moved(Box(p.length - p.height, p.width - p.height, p.height / 2.0), 0.0, 0.0, p.height / 2.0);
    var walkwayCut := Moved(Box(p.interiorLength + p.fitPadding, p.interiorWidth + p.fitPadding, p.height / 2.0),
                            0.0, 0.0, p.height / 2.0);
    var tiles := Moved(grid, 0.0, 0.0, p.floorHeight / 2.0 + p.height / 2.0);
    Moved(Intersection(Difference(outline, walkwayCut), tiles), 0.0, 0.0, -1.0)
  }

  /**
   * Rows are the whole tile steps that fit in length - height and columns the
   * half steps in width - height; the grid asks for two rows beyond that,
   * staggering odd columns by half a step.
   */
  lemma FloorGridCounts(p: CatwalkParams)
    requires TileStep(p) > 0.0
    requires p.length - p.height >= 0.0 && p.width - p.height >= 0.0
    ensures var grid := FloorGrid(p);
      && grid.rows == FloorRows(p) + 2
      && FloorRows(p) as real * TileStep(p) <= p.length - p.height < (FloorRows(p) + 1) as real * TileStep(p)
      && FloorColumns(p) as real * (TileStep(p) / 2.0) <= p.width - p.height
      && p.width - p.height < (FloorColumns(p) + 1) as real * (TileStep(p) / 2.0)
      && grid.pushX == grid.pitchY == TileStep(p) / 2.0
  {
    CountFits(p.length - p.height, TileStep(p));
    CountFits(p.width - p.height, TileStep(p) / 2.0);
  }

  /** Rank of a catwalk build step: platform, magnets, corner walls, floor tiles. */
  function CatwalkRank(s: Step): int
  {
    match s
    case Union(Platform) => 0
    case Cut(Magnets) => 1
    case Union(CornerWalls) => 2
    case _ => 3
  }

  /** What build() applies: the platform, then each feature whose flag is on and whose solid exists. */
  function CatwalkSteps(p: CatwalkParams, hasMagnets: bool, hasWalls: bool, hasFloor: bool): (r: seq<Step>)
    ensures |r| > 0 && r[0] == Union(Platform)
    ensures Cut(Magnets) in r <==> p.renderMagnets && hasMagnets
    ensures Union(CornerWalls) in r <==> p.renderCornerWalls && hasWalls
    ensures Cut(FloorTiles) in r <==> p.renderFloor && hasFloor
    ensures forall i, j :: 0 <= i < j < |r| ==> CatwalkRank(r[i]) < CatwalkRank(r[j])
  {
    [Union(Platform)]
    + Gated(p.renderMagnets && hasMagnets, Cut(Magnets))
    + Gated(p.renderCornerWalls && hasWalls, Union(CornerWalls))
    + Gated(p.renderFloor && hasFloor, Cut(FloorTiles))
  }

  class Catwalk {
    var params: CatwalkParams
    var makeCalled: bool
    var platform: Option<Solid>
    var cutMagnets: Option<seq<Solid>>
    var cornerWalls: Option<seq<Solid>>
    var floorTiles: Option<Solid>

    constructor ()
      ensures params == DefaultCatwalk() && !makeCalled
      ensures platform == None && cutMagnets == None && cornerWalls == None && floorTiles == None
    {
      params := DefaultCatwalk();
      makeCalled := false;
      platform, cutMagnets, cornerWalls, floorTiles := None, None, None, None;
    }

    method MakePlatform()
      modifies this`platform
      ensures platform == Some(PlatformSolid(params))
    {
      platform := Some(PlatformSolid(params));
    }

    method MakeMagnetCuts()
      modifies this`cutMagnets
      ensures cutMagnets == Some(MagnetCuts(params))
    {
      var x := params.interiorLength / 2.0 - params.magnetRadius - params.magnetPadding;
      var y := params.interiorWidth / 2.0 - params.magnetRadius - params.magnetPadding;
      var z := -1.0 * (params.height / 2.0 - params.magnetHeight / 2.0);
      cutMagnets := Some(Corners(Cylinder(params.magnetHeight, params.magnetRadius + 0.1), x, y, z));
    }

    method MakeCornerWalls()
      modifies this`cornerWalls
      ensures cornerWalls == Some(FourCorners(params))
    {
      cornerWalls := Some(FourCorners(params));
    }

    method MakeFloorTiles()
      modifies this`floorTiles
      requires TileStep(params) != 0.0
      ensures floorTiles == Some(FloorTilesSolid(params))
    {
      floorTiles := Some(FloorTilesSolid(params));
    }

    /** Marks the catwalk made, builds the platform, then each feature whose flag is on. */
    method Make()
      modifies this`makeCalled, this`platform, this`cutMagnets, this`cornerWalls, this`floorTiles
      requires params.renderFloor ==> TileStep(params) != 0.0
      ensures makeCalled && platform == Some(PlatformSolid(params))
      ensures cutMagnets == (if params.renderMagnets then Some(MagnetCuts(params)) else old(cutMagnets))
      ensures cornerWalls == (if params.renderCornerWalls then Some(FourCorners(params)) else old(cornerWalls))
      ensures params.renderFloor ==> floorTiles == Some(FloorTilesSolid(params))
      ensures !params.renderFloor ==> floorTiles == old(floorTiles)
    {
      makeCalled := true;
      MakePlatform();
      if params.renderMagnets {
        MakeMagnetCuts();
      }
      if params.renderCornerWalls {
        MakeCornerWalls();
      }
      if params.renderFloor {
        MakeFloorTiles();
      }
    }

    /** Refuses before make(); otherwise the platform and the gated steps. */
    method Build() returns (r: Result<seq<Step>, Error>)
      ensures !makeCalled ==> r == Err(NotMade)
      ensures makeCalled ==> r == Ok(CatwalkSteps(params, cutMagnets.Some?, cornerWalls.Some?, floorTiles.Some?))
    {
      if !makeCalled {
        return Err(NotMade);
      }
      var scene := [Union(Platform)];
      scene := scene + Gated(params.renderMagnets && cutMagnets.Some?, Cut(Magnets));
      scene := scene + Gated(params.renderCornerWalls && cornerWalls.Some?, Union(CornerWalls));
      scene := scene + Gated(params.renderFloor && floorTiles.Some?, Cut(FloorTiles));
      return Ok(scene);
    }
  }
}

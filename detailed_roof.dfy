/**
 * The detailed roof: a flat roof with wall cuts and wall details added. The
 * flat roof it extends is held as `flat`, whose settings and solids it uses
 * and whose make and build it runs first.
 */
module DetailedRoofs {
  import opened Common
  import opened Series
  import opened RoofWalls
  import opened FlatRoofs

  /** The settings a detailed roof adds to the flat roof's. */
  datatype DetailParams = DetailParams(
    bunkerIntLength: Option<real>, bunkerIntWidth: Option<real>,
    wallDetailsInset: real, wallDetailsDepth: real, wallArchFillet: real,
    hatchCutInset: real, hatchCutChamfer: real,
    roofOverflow: real)

  function DefaultDetail(): DetailParams
  {
    DetailParams(None, None, 3.0, 5.0, 2.0, 2.0, 2.0, 0.0)
  }

  function TileZTranslate(p: FlatRoofParams): real
  {
    -1.0 * (p.height / 2.0 - p.wallWidth - 1.0)
  }

  function HatchSpaceLength(p: FlatRoofParams): real
  {
    p.length - 2.0 * (p.inset + p.wallWidth) - 2.0 * p.roofChamfer
  }

  function HatchSpaceWidth(p: FlatRoofParams): real
  {
    p.width - 2.0 * (p.inset + p.wallWidth) - 2.0 * p.roofChamfer
  }

  function HatchZTranslate(p: FlatRoofParams): real
  {
    -1.0 * (p.height / 2.0) + p.hatchHeight / 2.0 + p.wallWidth
  }

  /** The hole centre's distance from the axis: from the full half length, or the inset half length when inset. */
  function HoleTranslate(span: real, p: FlatRoofParams): real
  {
    var start := if p.inset <= 0.0 then span / 2.0 else (span - p.inset * 2.0) / 2.0;
    start - p.holeDiameter / 2.0 - p.holeInset
  }

  function HoleXTranslate(p: FlatRoofParams): real
  {
    HoleTranslate(p.length, p)
  }

  function HoleYTranslate(p: FlatRoofParams): real
  {
    HoleTranslate(p.width, p)
  }

  /**
   * The hatch space is the flat roof's final interior; hatches and tiles
   * placed with these helpers sit on the shell's inner floor (a wall width
   * above the bottom face), the tiles' centre 1 above it.
   */
  lemma DetailedHelpersMatchInterior(p: FlatRoofParams)
    ensures HatchSpaceLength(p) == FinalIntLength(p) && HatchSpaceWidth(p) == FinalIntWidth(p)
    ensures HatchZTranslate(p) - p.hatchHeight / 2.0 == -p.height / 2.0 + p.wallWidth
    ensures TileZTranslate(p) - 1.0 == -p.height / 2.0 + p.wallWidth
  {
  }

  /**
   * With a positive inset the hole translate agrees with the flat roof's
   * holes; with no inset or a negative one it is measured from the full
   * length instead, 2|inset| short of the flat roof's final length.
   */
  lemma HoleTranslateAgainstFlat(p: FlatRoofParams)
    ensures p.inset > 0.0 ==>
      HoleXTranslate(p) == HoleCuts(p)[0].dx && HoleYTranslate(p) == HoleCuts(p)[0].dy
    ensures p.inset <= 0.0 ==>
      HoleXTranslate(p) == HoleCuts(p)[0].dx + p.inset && HoleYTranslate(p) == HoleCuts(p)[0].dy + p.inset
  {
  }

  /**
   * A detailed roof's build: the flat roof's, then the wall cut and the wall
   * details, then the holes again, since the details fill them.
   */
  function DetailedSteps(p: FlatRoofParams, hasHoles: bool, hasHatches: bool, hasTiles: bool): (r: seq<Step>)
    ensures |r| > |FlatSteps(p, hasHoles, hasHatches, hasTiles)| + 1
    ensures r[..|FlatSteps(p, hasHoles, hasHatches, hasTiles)|] == FlatSteps(p, hasHoles, hasHatches, hasTiles)
    ensures r[|FlatSteps(p, hasHoles, hasHatches, hasTiles)|] == Cut(WallCuts)
    ensures r[|FlatSteps(p, hasHoles, hasHatches, hasTiles)| + 1] == Union(WallDetails)
  {
    var flat := FlatSteps(p, hasHoles, hasHatches, hasTiles);
    var walls: seq<Step> := [Cut(WallCuts), Union(WallDetails)];
    assert (flat + walls + Gated(p.cutHoles && hasHoles, Cut(Holes)))[..|flat|] == flat;
    flat + walls + Gated(p.cutHoles && hasHoles, Cut(Holes))
  }

  /** Counts the steps equal to s. */
  function Occurrences(steps: seq<Step>, s: Step): nat
  {
    if steps == [] then 0
    else Occurrences(steps[..|steps| - 1], s) + (if steps[|steps| - 1] == s then 1 else 0)
  }

  lemma {:induction false} OccurrencesAppend(a: seq<Step>, b: seq<Step>, s: Step)
    ensures Occurrences(a + b, s) == Occurrences(a, s) + Occurrences(b, s)
    decreases |b|
  {
    if b == [] {
      assert a + b == a;
    } else {
      assert (a + b)[..|a + b| - 1] == a + b[..|b| - 1];
      OccurrencesAppend(a, b[..|b| - 1], s);
    }
  }

  lemma {:induction false} NotInNoOccurrences(steps: seq<Step>, s: Step)
    requires s !in steps
    ensures Occurrences(steps, s) == 0
    decreases |steps|
  {
    if steps != [] {
      NotInNoOccurrences(steps[..|steps| - 1], s);
    }
  }

  lemma {:induction false} InOneOccurrence(steps: seq<Step>, s: Step, rank: Step -> int)
    requires s in steps
    requires forall i, j :: 0 <= i < j < |steps| ==> rank(steps[i]) < rank(steps[j])
    ensures Occurrences(steps, s) == 1
    decreases |steps|
  {
    var last := steps[|steps| - 1];
    var init := steps[..|steps| - 1];
    if last == s {
      assert s !in init by {
        forall i | 0 <= i < |init| ensures init[i] != s {
          assert rank(steps[i]) < rank(steps[|steps| - 1]);
        }
      }
      NotInNoOccurrences(init, s);
    } else {
      assert s in init by {
        var i :| 0 <= i < |steps| && steps[i] == s;
        assert i < |steps| - 1;
        assert init[i] == s;
      }
      InOneOccurrence(init, s, rank);
    }
  }

  /** The holes are cut twice when they exist and are wanted, and never otherwise. */
  lemma HolesCutTwice(p: FlatRoofParams, hasHoles: bool, hasHatches: bool, hasTiles: bool)
    ensures Occurrences(DetailedSteps(p, hasHoles, hasHatches, hasTiles), Cut(Holes))
      == (if p.cutHoles && hasHoles then 2 else 0)
  {
    var flat := FlatSteps(p, hasHoles, hasHatches, hasTiles);
    var walls: seq<Step> := [Cut(WallCuts), Union(WallDetails)];
    var again := Gated(p.cutHoles && hasHoles, Cut(Holes));
    OccurrencesAppend(flat, walls, Cut(Holes));
    OccurrencesAppend(flat + walls, again, Cut(Holes));
    NotInNoOccurrences(walls, Cut(Holes));
    if p.cutHoles && hasHoles {
      InOneOccurrence(flat, Cut(Holes), FlatRank);
      assert Occurrences(again, Cut(Holes)) == 1 by {
        assert again[..0] == [];
      }
    } else {
      NotInNoOccurrences(flat, Cut(Holes));
      NotInNoOccurrences(again, Cut(Holes));
    }
  }

  class DetailedRoof {
    const flat: FlatRoof
    var detail: DetailParams
    var angle: real
    var outline: Option<Solid>
    var cutWalls: Option<seq<Solid>>
    var wallDetails: Option<seq<Bay>>

    constructor ()
      ensures fresh(flat)
      ensures flat.params == DefaultFlatRoof() && !flat.makeCalled
      ensures flat.roofBody == None && flat.tiles == None && flat.hatches == None && flat.holes == None
      ensures detail == DefaultDetail() && angle == 0.0
      ensures outline == None && cutWalls == None && wallDetails == None
    {
      flat := new FlatRoof();
      detail := DefaultDetail();
      angle := 0.0;
      outline, cutWalls, wallDetails := None, None, None;
    }

    /**
     * The wedge outline, shelled inwards by the wall width when that is
     * positive. The detailed roof's make() never calls it.
     */
    method MakeRoofBody()
      modifies this`outline, flat`roofBody
      ensures outline == Some(Tilted(Wedge(flat.params.length, flat.params.height, flat.params.width, flat.params.inset), -90.0))
      ensures flat.params.wallWidth > 0.0 ==> flat.roofBody == Some(Shelled(outline.value, -1.0 * flat.params.wallWidth))
      ensures flat.params.wallWidth <= 0.0 ==> flat.roofBody == outline
    {
      var p := flat.params;
      outline := Some(Tilted(Wedge(p.length, p.height, p.width, p.inset), -90.0));
      flat.roofBody := outline;
      if p.wallWidth > 0.0 {
        flat.roofBody := Some(Shelled(flat.roofBody.value, -1.0 * p.wallWidth));
      }
    }

    method MakeWallCuts()
      modifies this`cutWalls
      ensures cutWalls == Some(SlotCuts(flat.params.length, flat.params.width, flat.params.height,
                                        flat.params.inset, detail.wallDetailsDepth, detail.wallDetailsInset))
    {
      var p := flat.params;
      cutWalls := Some(SlotCuts(p.length, p.width, p.height, p.inset, detail.wallDetailsDepth, detail.wallDetailsInset));
    }

    method MakeWallDetails()
      modifies this`wallDetails
      ensures wallDetails == Some(DetailRows(flat.params.length, flat.params.width, flat.params.inset,
        detail.wallDetailsInset, WallDetailUnit(detail.wallDetailsDepth, flat.params.height, detail.wallArchFillet)))
    {
      var p := flat.params;
      var u := WallDetailUnit(detail.wallDetailsDepth, p.height, detail.wallArchFillet);
      wallDetails := Some(DetailRows(p.length, p.width, p.inset, detail.wallDetailsInset, u));
    }

    /**
     * The flat roof's make, then the roof angle (computed outside this model
     * and passed in), the wall cuts and the wall details. An error of the
     * flat roof's make stops it before the walls.
     */
    method Make(roofAngle: real) returns (err: Option<Error>)
      modifies flat`makeCalled, flat`roofBody, flat`tiles, flat`hatches, flat`holes
      modifies this`angle, this`cutWalls, this`wallDetails
      requires RoofBody(flat.params).Ok? && flat.params.renderTiles ==> TileSpace(flat.params) != 0.0
      ensures flat.makeCalled
      ensures err == MakeError(flat.params)
      ensures RoofBody(flat.params).Ok? ==> flat.roofBody == Some(RoofBody(flat.params).value)
      ensures RoofBody(flat.params).Err? ==> flat.roofBody == old(flat.roofBody)
      ensures flat.tiles == (if RoofBody(flat.params).Ok? && flat.params.renderTiles
                             then Some(RoofTiles(flat.params)) else old(flat.tiles))
      ensures flat.hatches == (if RoofBody(flat.params).Ok? && |flat.params.hatchPanels| > 0 && HatchValidation(flat.params).None?
                               then Some(RoofHatches(flat.params)) else old(flat.hatches))
      ensures flat.holes == (if err.None? && flat.params.cutHoles then Some(HoleCuts(flat.params)) else old(flat.holes))
      ensures err.None? ==> angle == roofAngle
      ensures err.None? ==>
        cutWalls == Some(SlotCuts(flat.params.length, flat.params.width, flat.params.height,
                                  flat.params.inset, detail.wallDetailsDepth, detail.wallDetailsInset))
      ensures err.None? ==>
        wallDetails == Some(DetailRows(flat.params.length, flat.params.width, flat.params.inset,
          detail.wallDetailsInset, WallDetailUnit(detail.wallDetailsDepth, flat.params.height, detail.wallArchFillet)))
      ensures err.Some? ==> angle == old(angle) && cutWalls == old(cutWalls) && wallDetails == old(wallDetails)
    {
      err := flat.Make();
      if err.Some? {
        return;
      }
      ghost var made := (flat.roofBody, flat.tiles, flat.hatches, flat.holes);
      angle := roofAngle;
      MakeWallCuts();
      MakeWallDetails();
      assert made == (flat.roofBody, flat.tiles, flat.hatches, flat.holes);
    }

    /**
     * Refuses before make(); fails when the body, the wall cuts or the wall
     * details were never made; otherwise the flat roof's steps, the walls,
     * and the holes again.
     */
    method Build() returns (r: Result<seq<Step>, Error>)
      ensures !flat.makeCalled ==> r == Err(NotMade)
      ensures flat.makeCalled && (flat.roofBody.None? || cutWalls.None? || wallDetails.None?) ==>
        r == Err(MissingSolid)
      ensures flat.makeCalled && flat.roofBody.Some? && cutWalls.Some? && wallDetails.Some? ==>
        r == Ok(DetailedSteps(flat.params, flat.holes.Some?, flat.hatches.Some?, flat.tiles.Some?))
    {
      r := flat.Build();
      if r.Err? {
        return;
      }
      if cutWalls.None? || wallDetails.None? {
        return Err(MissingSolid);
      }
      var result := r.value + [Cut(WallCuts), Union(WallDetails)];
      result := result + Gated(flat.params.cutHoles && flat.holes.Some?, Cut(Holes));
      return Ok(result);
    }
  }
}

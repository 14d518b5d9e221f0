/**
 * The wall cuts and wall details both roofs share: a slot cut into each of
 * the four walls, and rows of 24-long wall-detail modules that fill it.
 */
module RoofWalls {
  import opened Common
  import opened Series

  /** The module length the cuts are sized by and the details are spaced at. */
  const ModuleLength: real := 24.0

  /** How many wall-detail modules fit along a side of this span: floor((span - 2 inset) / 24). */
  function DetailCount(span: real, inset: real): nat
  {
    Count(span - inset * 2.0, ModuleLength)
  }

  /** The length of the cut along a side: floor((span - 2 inset) / 24) * 24. */
  function CutSize(span: real, inset: real): real
  {
    ((span - inset * 2.0) / ModuleLength).Floor as real * ModuleLength
  }

  /**
   * On a side at least as long as twice the inset, the cut is the longest
   * multiple of 24 that fits, and is exactly as long as its row of details.
   */
  lemma CutMatchesDetails(span: real, inset: real)
    requires span - inset * 2.0 >= 0.0
    ensures CutSize(span, inset) == DetailCount(span, inset) as real * ModuleLength
    ensures CutSize(span, inset) <= span - inset * 2.0 < CutSize(span, inset) + ModuleLength
  {
    CountFits(span - inset * 2.0, ModuleLength);
  }

  /** Where the cut and detail rows stand: 2 in from the half span, then moved in by the details inset. */
  function WallAcross(span: real, detailsInset: real): real
  {
    (span / 2.0 - 4.0 / 2.0) - detailsInset
  }

  /**
   * The four cuts: the y-running cut on the +x and -x walls, the x-running
   * cut on the +y and -y walls, in that order.
   */
  function SlotCuts(length: real, width: real, height: real, inset: real, depth: real, detailsInset: real): seq<Solid>
  {
    var xCut := Box(CutSize(length, inset), depth, height);
    var yCut := Box(depth, CutSize(width, inset), height);
    var ax := WallAcross(length, detailsInset);
    var ay := WallAcross(width, detailsInset);
    [Moved(yCut, ax, 0.0, 0.0), Moved(Turned(yCut, 180), -ax, 0.0, 0.0),
     Moved(xCut, 0.0, ay, 0.0), Moved(Turned(xCut, 180), 0.0, -ay, 0.0)]
  }

  /**
   * One wall-detail module: a 20-long block with a 4-long post centred on
   * each end face (24 overall), less a filleted arch.
   */
  function WallDetailUnit(depth: real, height: real, archFillet: real): Unit
  {
    var block := Box(20.0, depth, height);
    var post := Box(4.0, depth + 1.0, height);
    var arch := Filleted(Box(20.0 - depth, 5.0, ((height + 1.0) / 4.0) * 3.0), archFillet);
    Unit(Difference(Fused(Fused(block, Moved(post, 10.0, 0.0, 0.0)), Moved(post, -10.0, 0.0, 0.0)), arch),
         ModuleLength, 0.0)
  }

  /**
   * The details: the y-running rows on the +x then -x walls, then the
   * x-running rows on the +y then -y walls, modules spaced 24 apart.
   */
  function DetailRows(length: real, width: real, inset: real, detailsInset: real, u: Unit): (r: seq<Bay>)
    ensures |r| == 2 * DetailCount(length, inset) + 2 * DetailCount(width, inset)
  {
    var nx := DetailCount(length, inset);
    var ny := DetailCount(width, inset);
    var ax := WallAcross(length, detailsInset);
    var ay := WallAcross(width, detailsInset);
    Row(YPlus, ny, u, ModuleLength, ax, 0.0) + Row(YMinus, ny, u, ModuleLength, ax, 0.0)
    + Row(XPlus, nx, u, ModuleLength, ay, 0.0) + Row(XMinus, nx, u, ModuleLength, ay, 0.0)
  }

  /** Copy k of n spaced sp apart, with its own half length sp/2 either side, stays within n*sp/2 of the centre. */
  lemma OffsetWithinRow(n: nat, k: nat, sp: real)
    requires k < n && sp >= 0.0
    ensures -(n as real * sp) / 2.0 + sp / 2.0 <= Offset(n, k, sp) <= (n as real * sp) / 2.0 - sp / 2.0
  {
    var c := k as real - (n as real - 1.0) / 2.0;
    assert -(n as real - 1.0) / 2.0 <= c <= (n as real - 1.0) / 2.0;
    assert Offset(n, k, sp) == c * sp;
    MulBetween(c, (n as real - 1.0) / 2.0, sp);
  }

  lemma MulBetween(c: real, m: real, sp: real)
    requires -m <= c <= m && sp >= 0.0
    ensures -(m * sp) <= c * sp <= m * sp
  {
    assert (m - c) * sp >= 0.0;
    assert (c + m) * sp >= 0.0;
  }

  /** Every copy of a row of modules stands on the row's line and within n*24/2 - 12 of the centre along it. */
  lemma RowWithin(side: Side, n: nat, u: Unit, across: real)
    ensures var half := (n as real * ModuleLength) / 2.0 - 12.0;
      forall b :: b in Row(side, n, u, ModuleLength, across, 0.0) ==>
        && b.side == side
        && (side == YPlus ==> b.x == across && -half <= b.y <= half)
        && (side == YMinus ==> b.x == -across && -half <= b.y <= half)
        && (side == XPlus ==> b.y == across && -half <= b.x <= half)
        && (side == XMinus ==> b.y == -across && -half <= b.x <= half)
  {
    var r := Row(side, n, u, ModuleLength, across, 0.0);
    forall b | b in r
      ensures -((n as real * ModuleLength) / 2.0 - 12.0) <= Offset(n, b.k, ModuleLength) <= (n as real * ModuleLength) / 2.0 - 12.0
      ensures b == Place(side, b.k, u, Offset(n, b.k, ModuleLength), across, 0.0)
    {
      var j :| 0 <= j < |r| && r[j] == b;
      OffsetWithinRow(n, j, ModuleLength);
    }
  }

  /**
   * Every detail module lies in its wall's cut: it stands on the cut's line,
   * and along the wall both of its ends stay inside the cut.
   */
  lemma DetailsWithinCuts(length: real, width: real, inset: real, detailsInset: real, u: Unit)
    requires length - inset * 2.0 >= 0.0 && width - inset * 2.0 >= 0.0
    ensures var ax := WallAcross(length, detailsInset);
      var ay := WallAcross(width, detailsInset);
      var cx := CutSize(length, inset);
      var cy := CutSize(width, inset);
      forall b :: b in DetailRows(length, width, inset, detailsInset, u) ==>
        && (b.side == YPlus ==> b.x == ax && -cy / 2.0 + 12.0 <= b.y <= cy / 2.0 - 12.0)
        && (b.side == YMinus ==> b.x == -ax && -cy / 2.0 + 12.0 <= b.y <= cy / 2.0 - 12.0)
        && (b.side == XPlus ==> b.y == ay && -cx / 2.0 + 12.0 <= b.x <= cx / 2.0 - 12.0)
        && (b.side == XMinus ==> b.y == -ay && -cx / 2.0 + 12.0 <= b.x <= cx / 2.0 - 12.0)
  {
    var nx := DetailCount(length, inset);
    var ny := DetailCount(width, inset);
    var ax := WallAcross(length, detailsInset);
    var ay := WallAcross(width, detailsInset);
    CutMatchesDetails(length, inset);
    CutMatchesDetails(width, inset);
    RowWithin(YPlus, ny, u, ax);
    RowWithin(YMinus, ny, u, ax);
    RowWithin(XPlus, nx, u, ay);
    RowWithin(XMinus, nx, u, ay);
    var r1 := Row(YPlus, ny, u, ModuleLength, ax, 0.0);
    var r2 := Row(YMinus, ny, u, ModuleLength, ax, 0.0);
    var r3 := Row(XPlus, nx, u, ModuleLength, ay, 0.0);
    var r4 := Row(XMinus, nx, u, ModuleLength, ay, 0.0);
    assert DetailRows(length, width, inset, detailsInset, u) == r1 + r2 + r3 + r4;
    forall b | b in r1 + r2 + r3 + r4
      ensures b in r1 || b in r2 || b in r3 || b in r4
    {
    }
  }
}

/**
 * The perimeter series layout and its index mask: the engine every feature of
 * the bunker and its roofs is placed with.
 *
 * One unit is repeated along a row, the row is put on all four sides of a
 * rectangle (+y side, +x side, -y side, -x side, in that order), and the
 * concatenation of the four rows numbers every bay with a global index. A
 * skip list or a keep list then selects bays by that index.
 */
module Series {
  import opened Common

  /**
   * A repeatable unit: its solid, its extent along the row (the bounding-box
   * length the series helper spaces copies by) and the z lift the unit was
   * given before it was placed.
   */
  datatype Unit = Unit(solid: Solid, extent: real, lift: real)

  /**
   * The four rows. XPlus and XMinus repeat the unit along x (the rectangle's
   * length) on the +y and -y sides; YPlus and YMinus repeat it along y on the
   * +x and -x sides.
   */
  datatype Side = XPlus | YPlus | XMinus | YMinus

  /** One placed copy: its row, its position k in the row, and where its origin lands. */
  datatype Bay = Bay(side: Side, k: nat, unit: Unit, x: real, y: real, z: real)

  /** A skip list and a keep list over global indices; an absent list is empty. */
  datatype Mask = Mask(skip: seq<int>, keep: seq<int>)

  /** The arguments a feature passes to make_series. */
  datatype Placement = Placement(
    unit: Unit,
    lengthOffset: real,
    xTranslate: real,
    yTranslate: real,
    zTranslate: real,
    mask: Mask)

  /** `floor(span / pitch)`; a negative floor asks the series helper for no copies. */
  function Count(span: real, pitch: real): nat
    requires pitch != 0.0
  {
    var f := (span / pitch).Floor;
    if f < 0 then 0 else f
  }

  /** With a positive pitch, Count is the largest number of pitches that fit in the span. */
  lemma CountFits(span: real, pitch: real)
    requires pitch > 0.0
    ensures span >= 0.0 ==> Count(span, pitch) as real * pitch <= span
    ensures span < (Count(span, pitch) + 1) as real * pitch
  {
    var f := (span / pitch).Floor;
    var n := Count(span, pitch);
    if f < 0 {
      ScaleBound(span, pitch, 0.0);
    } else {
      ScaleBound(span, pitch, (n + 1) as real);
      ScaleBound(span, pitch, n as real);
    }
  }

  /** Multiplying a bound on span / pitch by a positive pitch. */
  lemma ScaleBound(span: real, pitch: real, c: real)
    requires pitch > 0.0
    ensures span / pitch < c ==> span < c * pitch
    ensures c <= span / pitch ==> c * pitch <= span
  {
    var q := span / pitch;
    assert q * pitch == span;
    if q < c {
      assert (c - q) * pitch > 0.0;
    }
    if c <= q {
      assert (q - c) * pitch >= 0.0;
    }
  }

  /** Position of copy k of n along its row: evenly spaced, centred on the origin. */
  function Offset(n: nat, k: nat, spacing: real): real
  {
    (k as real - (n as real - 1.0) / 2.0) * spacing
  }

  /**
   * Copy k of a row whose centre lies `along` the row and `across` it from the
   * origin, after the rotation its side gets (none, 90, 180 or 270 degrees
   * about z) and the side's translation. The turns are clockwise seen from
   * above, because CadQuery's axis runs from (0,0,1) to (0,0,0): a 90-degree
   * turn takes (a, 0) to (0, -a).
   */
  function Place(side: Side, k: nat, u: Unit, along: real, across: real, z: real): Bay
  {
    match side
    case XPlus => Bay(side, k, u, along, across, z)
    case YPlus => Bay(side, k, u, across, -along, z)
    case XMinus => Bay(side, k, u, -along, -across, z)
    case YMinus => Bay(side, k, u, -across, along, z)
  }

  function Row(side: Side, n: nat, u: Unit, spacing: real, across: real, z: real): (r: seq<Bay>)
    ensures |r| == n
  {
    seq(n, k requires 0 <= k < n => Place(side, k, u, Offset(n, k, spacing), across, z))
  }

  /** The unfiltered composite: the +y row, the +x row, the -y row, the -x row. */
  function Perimeter(nx: nat, ny: nat, p: Placement): (r: seq<Bay>)
    ensures |r| == 2 * nx + 2 * ny
  {
    var spacing := p.unit.extent + p.lengthOffset;
    Row(XPlus, nx, p.unit, spacing, p.yTranslate, p.zTranslate)
    + Row(YPlus, ny, p.unit, spacing, p.xTranslate, p.zTranslate)
    + Row(XMinus, nx, p.unit, spacing, p.yTranslate, p.zTranslate)
    + Row(YMinus, ny, p.unit, spacing, p.xTranslate, p.zTranslate)
  }

  /** The global index a bay gets in a composite with nx copies along x and ny along y. */
  function GlobalIndex(b: Bay, nx: nat, ny: nat): nat
  {
    match b.side
    case XPlus => b.k
    case YPlus => nx + b.k
    case XMinus => nx + ny + b.k
    case YMinus => 2 * nx + ny + b.k
  }

  function SideLength(side: Side, nx: nat, ny: nat): nat
  {
    if side == XPlus || side == XMinus then nx else ny
  }

  /** The global indices of a sequence of bays, in order. */
  function Indices(bays: seq<Bay>, nx: nat, ny: nat): (r: seq<nat>)
    ensures |r| == |bays|
  {
    seq(|bays|, j requires 0 <= j < |bays| => GlobalIndex(bays[j], nx, ny))
  }

  /**
   * The composite enumerates +y, +x, -y, -x, each row in series order: bay i
   * of the composite is the bay whose global index is i, every bay is a copy
   * of the one unit, and all sit at the same z.
   */
  lemma PerimeterOrder(nx: nat, ny: nat, p: Placement)
    ensures var bays := Perimeter(nx, ny, p);
      forall i :: 0 <= i < |bays| ==>
        && GlobalIndex(bays[i], nx, ny) == i
        && bays[i].k < SideLength(bays[i].side, nx, ny)
        && bays[i].unit == p.unit
        && bays[i].z == p.zTranslate
  {
    var bays := Perimeter(nx, ny, p);
    forall i | 0 <= i < |bays|
      ensures GlobalIndex(bays[i], nx, ny) == i
      ensures bays[i].k < SideLength(bays[i].side, nx, ny)
    {
      if i < nx {
        assert bays[i].side == XPlus && bays[i].k == i;
      } else if i < nx + ny {
        assert bays[i].side == YPlus && bays[i].k == i - nx;
      } else if i < 2 * nx + ny {
        assert bays[i].side == XMinus && bays[i].k == i - nx - ny;
      } else {
        assert bays[i].side == YMinus && bays[i].k == i - 2 * nx - ny;
      }
    }
  }

  /**
   * Opposite sides are point reflections of each other through the vertical
   * axis: the second half of the composite (-y row, -x row) is the first half
   * (+y row, +x row) with every planar position negated, copy for copy. The
   * +y row lies on y = yTranslate and the +x row on x = xTranslate.
   */
  lemma OppositeSidesReflect(nx: nat, ny: nat, p: Placement)
    ensures var bays := Perimeter(nx, ny, p);
      forall i :: 0 <= i < nx + ny ==>
        && bays[i + nx + ny].k == bays[i].k
        && bays[i + nx + ny].x == -bays[i].x
        && bays[i + nx + ny].y == -bays[i].y
        && bays[i + nx + ny].z == bays[i].z
        && (i < nx ==> bays[i].y == p.yTranslate)
        && (nx <= i ==> bays[i].x == p.xTranslate)
  {
    var bays := Perimeter(nx, ny, p);
    var spacing := p.unit.extent + p.lengthOffset;
    forall i | 0 <= i < nx + ny
      ensures bays[i + nx + ny].k == bays[i].k
      ensures bays[i + nx + ny].x == -bays[i].x && bays[i + nx + ny].y == -bays[i].y
      ensures bays[i + nx + ny].z == bays[i].z
      ensures i < nx ==> bays[i].y == p.yTranslate
      ensures nx <= i ==> bays[i].x == p.xTranslate
    {
      if i < nx {
        assert bays[i] == Place(XPlus, i, p.unit, Offset(nx, i, spacing), p.yTranslate, p.zTranslate);
        assert bays[i + nx + ny] == Place(XMinus, i, p.unit, Offset(nx, i, spacing), p.yTranslate, p.zTranslate);
      } else {
        assert bays[i] == Place(YPlus, i - nx, p.unit, Offset(ny, i - nx, spacing), p.xTranslate, p.zTranslate);
        assert bays[i + nx + ny] == Place(YMinus, i - nx, p.unit, Offset(ny, i - nx, spacing), p.xTranslate, p.zTranslate);
      }
    }
  }

  /**
   * Where the copies land depends on the unit only through its extent: two
   * placements with the same spacing and translations put their copies at
   * the same positions.
   */
  lemma SamePositions(nx: nat, ny: nat, p: Placement, q: Placement)
    requires p.unit.extent + p.lengthOffset == q.unit.extent + q.lengthOffset
    requires p.xTranslate == q.xTranslate && p.yTranslate == q.yTranslate && p.zTranslate == q.zTranslate
    ensures var a := Perimeter(nx, ny, p);
      var c := Perimeter(nx, ny, q);
      forall i :: 0 <= i < |a| ==>
        a[i].side == c[i].side && a[i].k == c[i].k && a[i].x == c[i].x && a[i].y == c[i].y && a[i].z == c[i].z
  {
    var a := Perimeter(nx, ny, p);
    var c := Perimeter(nx, ny, q);
    forall i | 0 <= i < |a|
      ensures a[i].side == c[i].side && a[i].k == c[i].k && a[i].x == c[i].x && a[i].y == c[i].y && a[i].z == c[i].z
    {
      if i < nx {
      } else if i < nx + ny {
      } else if i < 2 * nx + ny {
      } else {
      }
    }
  }

  /** Consecutive offsets differ by the spacing. */
  lemma OffsetStep(n: nat, k: nat, spacing: real)
    ensures Offset(n, k + 1, spacing) - Offset(n, k, spacing) == spacing
  {
    var c := (n as real - 1.0) / 2.0;
    assert (k as real + 1.0 - c) * spacing == (k as real - c) * spacing + spacing;
  }

  /**
   * Neighbouring copies of a row are one spacing (extent plus length offset)
   * apart along the row, in the direction its side's rotation gives, and
   * stand on the same line across it.
   */
  lemma RowSpacing(side: Side, n: nat, u: Unit, spacing: real, across: real, z: real)
    ensures var r := Row(side, n, u, spacing, across, z);
      forall k :: 0 <= k < n - 1 ==>
        && (side == XPlus ==> r[k + 1].x - r[k].x == spacing && r[k + 1].y == r[k].y)
        && (side == YPlus ==> r[k].y - r[k + 1].y == spacing && r[k + 1].x == r[k].x)
        && (side == XMinus ==> r[k].x - r[k + 1].x == spacing && r[k + 1].y == r[k].y)
        && (side == YMinus ==> r[k + 1].y - r[k].y == spacing && r[k + 1].x == r[k].x)
  {
    var r := Row(side, n, u, spacing, across, z);
    forall k | 0 <= k < n - 1
      ensures side == XPlus ==> r[k + 1].x - r[k].x == spacing && r[k + 1].y == r[k].y
      ensures side == YPlus ==> r[k].y - r[k + 1].y == spacing && r[k + 1].x == r[k].x
      ensures side == XMinus ==> r[k].x - r[k + 1].x == spacing && r[k + 1].y == r[k].y
      ensures side == YMinus ==> r[k + 1].y - r[k].y == spacing && r[k + 1].x == r[k].x
    {
      OffsetStep(n, k, spacing);
      assert r[k] == Place(side, k, u, Offset(n, k, spacing), across, z);
      assert r[k + 1] == Place(side, k + 1, u, Offset(n, k + 1, spacing), across, z);
    }
  }

  /** Whether the mask keeps global index i: the skip list wins, then the keep list, else all. */
  predicate Retains(m: Mask, i: int)
  {
    if |m.skip| > 0 then i !in m.skip
    else if |m.keep| > 0 then i in m.keep
    else true
  }

  /** The members of s whose index the mask retains, in their original order. */
  function Masked<T>(s: seq<T>, m: Mask): (r: seq<T>)
    ensures |r| <= |s|
    decreases |s|
  {
    if s == [] then []
    else Masked(s[..|s| - 1], m) + (if Retains(m, |s| - 1) then [s[|s| - 1]] else [])
  }

  /** The indices below n that the mask retains, ascending. */
  function Retained(n: nat, m: Mask): seq<nat>
  {
    if n == 0 then [] else Retained(n - 1, m) + (if Retains(m, n - 1) then [n - 1] else [])
  }

  /** The members of s at the given indices, in the order of the indices. */
  function Select<T>(s: seq<T>, idx: seq<nat>): seq<T>
    requires forall j :: 0 <= j < |idx| ==> idx[j] < |s|
  {
    seq(|idx|, j requires 0 <= j < |idx| => s[idx[j]])
  }

  /**
   * Retained(n, m) lists exactly the indices below n that the mask retains,
   * each once, in increasing order.
   */
  lemma {:induction false} RetainedExactly(n: nat, m: Mask)
    ensures forall j :: 0 <= j < |Retained(n, m)| ==> Retained(n, m)[j] < n
    ensures forall i, j :: 0 <= i < j < |Retained(n, m)| ==> Retained(n, m)[i] < Retained(n, m)[j]
    ensures forall i :: 0 <= i < n ==> (i in Retained(n, m) <==> Retains(m, i))
  {
    if n > 0 {
      RetainedExactly(n - 1, m);
    }
  }

  /** Masking keeps exactly the members at the retained indices, in original order. */
  lemma {:induction false} MaskedIsSelection<T>(s: seq<T>, m: Mask)
    ensures forall j :: 0 <= j < |Retained(|s|, m)| ==> Retained(|s|, m)[j] < |s|
    ensures Masked(s, m) == Select(s, Retained(|s|, m))
  {
    RetainedExactly(|s|, m);
    if s != [] {
      var init := s[..|s| - 1];
      MaskedIsSelection(init, m);
      RetainedExactly(|init|, m);
      var idx := Retained(|s|, m);
      assert Retained(|init|, m) == idx[..|Retained(|init|, m)|];
      assert forall j :: 0 <= j < |Retained(|init|, m)| ==> init[idx[j]] == s[idx[j]];
    }
  }

  /** With a non-empty skip list the keep list is ignored. */
  lemma {:induction false} SkipWins<T>(s: seq<T>, skip: seq<int>, keep: seq<int>)
    requires |skip| > 0
    ensures Masked(s, Mask(skip, keep)) == Masked(s, Mask(skip, []))
  {
    if s != [] {
      SkipWins(s[..|s| - 1], skip, keep);
    }
  }

  /** With both lists empty the composite is unchanged. */
  lemma {:induction false} NoListsKeepAll<T>(s: seq<T>)
    ensures Masked(s, Mask([], [])) == s
  {
    if s != [] {
      NoListsKeepAll(s[..|s| - 1]);
    }
  }

  /**
   * Only which in-range indices a keep list names matters: repeats, order and
   * indices outside the composite add nothing.
   */
  lemma {:induction false} KeepListAsSet<T>(s: seq<T>, keep1: seq<int>, keep2: seq<int>)
    requires |keep1| > 0 && |keep2| > 0
    requires forall i :: 0 <= i < |s| ==> (i in keep1 <==> i in keep2)
    ensures Masked(s, Mask([], keep1)) == Masked(s, Mask([], keep2))
  {
    if s != [] {
      KeepListAsSet(s[..|s| - 1], keep1, keep2);
    }
  }

  /** Masking only drops members: everything it keeps was in the composite. */
  lemma {:induction false} MaskedMembers<T>(s: seq<T>, m: Mask)
    ensures forall x :: x in Masked(s, m) ==> x in s
  {
    if s != [] {
      MaskedMembers(s[..|s| - 1], m);
      assert forall x :: x in s[..|s| - 1] ==> x in s;
    }
  }

  /** The filtered composite has one member per retained index. */
  lemma MaskedLengthIsRetainedCount<T>(s: seq<T>, m: Mask)
    ensures |Masked(s, m)| == |Retained(|s|, m)|
  {
    MaskedIsSelection(s, m);
  }

  /** The filtered composite: what make_series returns. */
  function Layout(nx: nat, ny: nat, p: Placement): seq<Bay>
  {
    Masked(Perimeter(nx, ny, p), p.mask)
  }

  /** The global indices of a layout are exactly the indices its mask retains, ascending. */
  lemma LayoutIndices(nx: nat, ny: nat, p: Placement)
    ensures Indices(Layout(nx, ny, p), nx, ny) == Retained(2 * nx + 2 * ny, p.mask)
  {
    var all := Perimeter(nx, ny, p);
    MaskedIsSelection(all, p.mask);
    PerimeterOrder(nx, ny, p);
  }

  /** Two layouts with the same counts and mask occupy the same bays, whatever their units. */
  lemma SameMaskSameBays(nx: nat, ny: nat, p: Placement, q: Placement)
    requires p.mask == q.mask
    ensures Indices(Layout(nx, ny, p), nx, ny) == Indices(Layout(nx, ny, q), nx, ny)
  {
    LayoutIndices(nx, ny, p);
    LayoutIndices(nx, ny, q);
  }

  /**
   * The filter as the generator runs it: one pass over the composite,
   * appending the members the active list lets through to a fresh scene.
   */
  method ApplyMask<T>(all: seq<T>, m: Mask) returns (scene: seq<T>)
    ensures scene == Masked(all, m)
  {
    if |m.skip| > 0 {
      scene := [];
      for i := 0 to |all|
        invariant scene == Masked(all[..i], m)
      {
        assert all[..i + 1][..i] == all[..i];
        if i !in m.skip {
          scene := scene + [all[i]];
        }
      }
    } else if |m.keep| > 0 {
      scene := [];
      for i := 0 to |all|
        invariant scene == Masked(all[..i], m)
      {
        assert all[..i + 1][..i] == all[..i];
        if i in m.keep {
          scene := scene + [all[i]];
        }
      }
    } else {
      scene := all;
      NoListsKeepAll(all);
      assert m == Mask([], []);
      return;
    }
    assert all[..|all|] == all;
  }

  /** A 120-long span with 28-long units and padding 4 holds 3 copies. */
  lemma CountExample()
    ensures Count(120.0, 28.0 + 4.0) == 3
  {
  }

  /** keep_list [0, 3] on an 8-member composite returns members 0 and 3, in that order. */
  lemma KeepExample<T>(s: seq<T>)
    requires |s| == 8
    ensures Masked(s, Mask([], [0, 3])) == [s[0], s[3]]
  {
    var m := Mask([], [0, 3]);
    MaskedIsSelection(s, m);
    assert Retained(1, m) == [0];
    assert Retained(2, m) == [0];
    assert Retained(3, m) == [0];
    assert Retained(4, m) == [0, 3];
    assert Retained(5, m) == [0, 3];
    assert Retained(6, m) == [0, 3];
    assert Retained(7, m) == [0, 3];
    assert Retained(8, m) == [0, 3];
    assert Select(s, [0, 3]) == [s[0], s[3]];
  }

  /** With skip_list [0] and keep_list [1, 2] the skip list decides: members 1..7 survive. */
  lemma SkipOverKeepExample<T>(s: seq<T>)
    requires |s| == 8
    ensures Masked(s, Mask([0], [1, 2])) == s[1..]
  {
    SkipWins(s, [0], [1, 2]);
    MaskedIsSelection(s, Mask([0], []));
    SkipZeroOfEight();
    var sel := Select(s, [1, 2, 3, 4, 5, 6, 7]);
    assert forall j :: 0 <= j < 7 ==> sel[j] == s[1..][j];
  }

  lemma SkipZeroOfEight()
    ensures Retained(8, Mask([0], [])) == [1, 2, 3, 4, 5, 6, 7]
  {
    var m := Mask([0], []);
    assert Retained(1, m) == [];
    assert Retained(2, m) == [1];
    assert Retained(3, m) == [1, 2];
    assert Retained(4, m) == [1, 2, 3];
    assert Retained(5, m) == [1, 2, 3, 4];
    assert Retained(6, m) == [1, 2, 3, 4, 5];
    assert Retained(7, m) == [1, 2, 3, 4, 5, 6];
  }
}

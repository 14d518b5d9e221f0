/**
 * The stand-alone series helper object: callers set its fields, `Make`
 * validates them and stores the filtered composite, `GetScene` hands it out.
 */
module SeriesHelpers {
  import opened Common
  import opened Series

  /** The checks make() runs first, in their order: unit, then spans, then pitch. */
  function Validation(shape: Option<Unit>, outerLength: real, outerWidth: real,
                      compLength: real, compPadding: real): (r: Option<Error>)
    ensures r.None? <==>
      shape.Some? && outerLength > 0.0 && outerWidth > 0.0 && compPadding + compLength > 0.0
    ensures shape.None? ==> r == Some(NoShape)
    ensures shape.Some? && (outerLength <= 0.0 || outerWidth <= 0.0) ==> r == Some(OuterSizeUnset)
  {
    if shape.None? then Some(NoShape)
    else if outerLength <= 0.0 || outerWidth <= 0.0 then Some(OuterSizeUnset)
    else if compPadding + compLength <= 0.0 then Some(ComponentSizeUnset)
    else None
  }

  class SeriesHelper {
    var shape: Option<Unit>
    var outerLength: real
    var outerWidth: real
    var lengthOffset: real
    var compLength: real
    var compPadding: real
    var xTranslate: real
    var yTranslate: real
    var zTranslate: real
    var skipList: seq<int>
    var keepList: seq<int>
    var scene: Option<seq<Bay>>

    constructor ()
      ensures shape == None && scene == None
      ensures outerLength == 0.0 && outerWidth == 0.0 && lengthOffset == 0.0
      ensures compLength == 0.0 && compPadding == 0.0
      ensures xTranslate == 0.0 && yTranslate == 0.0 && zTranslate == 0.0
      ensures skipList == [] && keepList == []
    {
      shape := None;
      outerLength, outerWidth, lengthOffset := 0.0, 0.0, 0.0;
      compLength, compPadding := 0.0, 0.0;
      xTranslate, yTranslate, zTranslate := 0.0, 0.0, 0.0;
      skipList, keepList := [], [];
      scene := None;
    }

    /** The placement the fields describe, once a unit is set. */
    function Placing(): Placement
      reads this
      requires shape.Some?
    {
      Placement(shape.value, lengthOffset, xTranslate, yTranslate, zTranslate, Mask(skipList, keepList))
    }

    /**
     * Validates, then stores the composite with `floor(outerLength / pitch)`
     * copies along x and `floor(outerWidth / pitch)` along y, filtered by the
     * skip or keep list. A failed validation stores nothing.
     */
    method Make() returns (err: Option<Error>)
      modifies this
      ensures err == Validation(shape, outerLength, outerWidth, compLength, compPadding)
      ensures err.Some? ==> scene == old(scene)
      ensures err.None? ==>
        scene == Some(Layout(Count(outerLength, compLength + compPadding),
                             Count(outerWidth, compLength + compPadding), Placing()))
      ensures shape == old(shape) && outerLength == old(outerLength) && outerWidth == old(outerWidth)
      ensures lengthOffset == old(lengthOffset)
      ensures compLength == old(compLength) && compPadding == old(compPadding)
      ensures xTranslate == old(xTranslate) && yTranslate == old(yTranslate) && zTranslate == old(zTranslate)
      ensures skipList == old(skipList) && keepList == old(keepList)
    {
      if shape.None? {
        return Some(NoShape);
      }
      if outerLength <= 0.0 || outerWidth <= 0.0 {
        return Some(OuterSizeUnset);
      }
      if compPadding + compLength <= 0.0 {
        return Some(ComponentSizeUnset);
      }
      var xCount := Count(outerLength, compLength + compPadding);
      var yCount := Count(outerWidth, compLength + compPadding);
      var composite := Perimeter(xCount, yCount, Placing());
      var filtered := ApplyMask(composite, Mask(skipList, keepList));
      scene := Some(filtered);
      err := None;
    }

    /** The stored scene; an error while no make() has succeeded. */
    method GetScene() returns (r: Result<seq<Bay>, Error>)
      ensures r.Err? <==> scene.None?
      ensures r.Err? ==> r.error == SceneUnset
      ensures r.Ok? ==> Some(r.value) == scene
    {
      if scene.None? {
        return Err(SceneUnset);
      }
      return Ok(scene.value);
    }
  }

  /**
   * After a successful make() the scene holds two rows of
   * floor(outerLength / pitch) and two of floor(outerWidth / pitch) copies
   * before filtering, and with empty lists it is that whole composite.
   */
  lemma MadeSceneSize(h: SeriesHelper, xCount: nat, yCount: nat)
    requires h.shape.Some?
    requires h.compLength + h.compPadding > 0.0
    requires xCount == Count(h.outerLength, h.compLength + h.compPadding)
    requires yCount == Count(h.outerWidth, h.compLength + h.compPadding)
    requires h.skipList == [] && h.keepList == []
    ensures |Layout(xCount, yCount, h.Placing())| == 2 * xCount + 2 * yCount
  {
    NoListsKeepAll(Perimeter(xCount, yCount, h.Placing()));
  }
}

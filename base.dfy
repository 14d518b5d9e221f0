/**
 * The make-before-build lifecycle every generator object follows: `Make`
 * records that the solids were prepared, `Build` refuses to run before it.
 */
module Lifecycle {
  import opened Common

  class Base {
    var length: real
    var width: real
    var height: real
    var makeCalled: bool

    /** A new object measures 75 on every axis and has not been made. */
    constructor ()
      ensures length == 75.0 && width == 75.0 && height == 75.0
      ensures !makeCalled
    {
      length, width, height := 75.0, 75.0, 75.0;
      makeCalled := false;
    }

    /** The (length, width, height) triple. */
    function Dimensions(): (real, real, real)
      reads this
    {
      (length, width, height)
    }

    /** Marks the object made; its dimensions stay as they were. */
    method Make()
      modifies this`makeCalled
      ensures makeCalled
      ensures Dimensions() == old(Dimensions())
    {
      makeCalled := true;
    }

    /** Fails exactly when make has not been called, and changes nothing. */
    method Build() returns (err: Option<Error>)
      ensures err.None? <==> makeCalled
      ensures err.Some? ==> err.value == NotMade
    {
      if !makeCalled {
        return Some(NotMade);
      }
      return None;
    }
  }
}

/** The optional value used for JavaScript properties that may be absent. */
module Wrappers {

  /** `None` stands for a property that is absent (or `undefined`). */
  datatype Option<+T> = None | Some(value: T) {

    /** The value when present, `default` otherwise (JavaScript `x ?? default`). */
    function GetOr(default: T): (r: T)
      ensures Some? ==> r == value
      ensures None? ==> r == default
    {
      match this
      case Some(v) => v
      case None => default
    }
  }
}

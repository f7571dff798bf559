/** The Option datatype used throughout the model. `None` stands for a value the
    source leaves undefined: a `NaN` from `Number.parseFloat`, a `null` from
    `localStorage.getItem`, an `undefined` from `Array.prototype.find`. */
module Wrappers {

  datatype Option<+T> = None | Some(value: T) {

    /** The wrapped value, or `default` when there is none (the source's `x || default`). */
    function GetOr(default: T): (r: T)
      ensures Some? ==> r == value
      ensures None? ==> r == default
    {
      match this
      case Some(v) => v
      case None => default
    }
  }
}

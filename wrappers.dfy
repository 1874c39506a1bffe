/** The optional value used for PHP's nullable results and unset properties. */
module Wrappers {

  datatype Option<+T> = None | Some(value: T) {

    /** The value, or `default` when there is none (PHP's `??` with a fallback value). */
    function GetOr(default: T): T {
      match this
      case Some(v) => v
      case None => default
    }

    /** This option if it holds a value, otherwise `other` (PHP's `a ?? b`). */
    function Or(other: Option<T>): Option<T> {
      if Some? then this else other
    }
  }
}

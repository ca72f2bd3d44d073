/**
 * `Option` stands in for JavaScript's `null`/`undefined`, and for the outcome of a remote call
 * that either answers with a value or throws.
 */
module Wrappers {

  datatype Option<+T> = None | Some(value: T) {

    /** `x ?? fallback`: the value when there is one, the fallback otherwise. */
    function GetOr(fallback: T): T {
      if Some? then value else fallback
    }
  }
}

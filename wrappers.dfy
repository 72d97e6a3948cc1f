/** The `undefined`-or-value shape of TypeScript's optional fields and lookups. */
module Wrappers {

  datatype Option<+T> = None | Some(value: T) {

    /** `x || fallback` for an optional field whose values are all truthy
        when present, and `x ?? fallback` in general. */
    function GetOr(fallback: T): T
    {
      match this
      case Some(v) => v
      case None => fallback
    }
  }
}

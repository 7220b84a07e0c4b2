module Wrappers {

  /** A value that may be absent: `undefined`, a failed lookup, a relation
      that was not loaded. */
  datatype Option<T> = None | Some(value: T)
  {
    /** `x ?? d` */
    function GetOr(d: T): T {
      if Some? then value else d
    }
  }
}

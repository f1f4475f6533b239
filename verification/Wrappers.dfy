/** Absent values and refused operations. */
module Wrappers {

  /** A nullable column, an omitted argument, or a lookup that may find nothing. */
  datatype Option<+T> = None | Some(value: T)
  {
    /** The stored value, or `default` when there is none. */
    function Or(default: T): T {
      if Some? then value else default
    }
  }
}

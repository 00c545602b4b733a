/** Option, used for values that may be absent: a form field the user left
    empty, a number that did not parse, an activity that is not in the table. */
module Wrappers {

  datatype Option<+T> = None | Some(value: T) {

    /** The value held by Some, or `default` for None. */
    function GetOr(default: T): T
    {
      match this
      case Some(v) => v
      case None => default
    }
  }
}

/** The optional value used wherever the bot has "maybe nothing": a Python `None`, a missing
    dictionary key, a parse that raised `ValueError`. */
module Wrappers {

  datatype Option<+T> = None | Some(value: T) {

    /** The value, or `default` when there is none (Python's `x or default` for non-falsy `x`). */
    function GetOr(default: T): T
    {
      match this
      case Some(v) => v
      case None => default
    }
  }
}

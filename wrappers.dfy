/** Option values and the three ways a persisted storage slot can read back. */
module Wrappers {

  datatype Option<+T> = None | Some(value: T) {
    function GetOr(default: T): T {
      match this
      case Some(v) => v
      case None => default
    }
  }

  /** What reading one storage key yields: nothing (a missing or empty
      string, both falsy), text that does not parse, or a parsed value. */
  datatype Slot<+T> = Absent | Unreadable | Parsed(value: T)
}

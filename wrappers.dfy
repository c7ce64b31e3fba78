/** Small value wrappers shared by the connector model. */
module Wrappers {

  /** A JavaScript property that may be missing (`undefined`) or holds a value. */
  datatype Option<+T> = None | Some(value: T) {

    /** The value, or `default` when missing (the object-spread default of the source). */
    function GetOr(default: T): T {
      match this
      case Some(v) => v
      case None => default
    }
  }

  /** How a JavaScript call ends: it returns a value, or it throws. */
  datatype Completion<+T> = Normal(value: T) | Throw(reason: string)
}

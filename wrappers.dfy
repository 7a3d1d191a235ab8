/** The optional-value datatype shared by every module of the model. */
module Wrappers {

  /** An optional value; None stands for JavaScript's `undefined` or `null`. */
  datatype Option<+T> = None | Some(value: T) {

    /** The value, or `default` when there is none (JavaScript's default parameter). */
    function GetOr(default: T): T {
      match this
      case Some(v) => v
      case None => default
    }
  }
}

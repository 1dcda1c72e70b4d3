/** The optional-value datatype used throughout the model: `None` stands for
    JavaScript's `undefined`/`null` (an absent key, a missing payload field, a
    storage slot that holds nothing). */
module Wrappers {

  datatype Option<+T> = None | Some(value: T) {

    /** Returns the value held in Some, or the given default for None. */
    function GetOr(default: T): T {
      match this
      case Some(v) => v
      case None => default
    }
  }
}

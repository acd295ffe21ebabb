/** The optional-value datatype shared by the modules of this model. */
module Wrappers {

  /** `None` stands for JavaScript's `null`/`undefined`, `Some(v)` for a present value. */
  datatype Option<+T> = None | Some(value: T) {

    /** Returns the wrapped value, or `default` when there is none. */
    function GetOr(default: T): T {
      match this
      case Some(v) => v
      case None => default
    }
  }
}

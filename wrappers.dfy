/** The optional-value type shared by both registries: `None` stands for
    JavaScript's `null` and `undefined` wherever the source compares them
    loosely or treats them alike. */
module Wrappers {

  datatype Option<+T> = None | Some(value: T) {

    /** The carried value, or `default` when there is none. */
    function GetOr(default: T): T {
      match this
      case Some(v) => v
      case None => default
    }
  }
}

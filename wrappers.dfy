/** The optional-value datatype used throughout the model for JavaScript's
    `undefined`/`null` and for TypeScript's optional properties. */
module Wrappers {

  datatype Option<+T> = None | Some(value: T) {

    /** Returns the wrapped value, or `default` when there is none (`x ?? default`). */
    function GetOr(default: T): T {
      match this
      case Some(v) => v
      case None => default
    }
  }
}

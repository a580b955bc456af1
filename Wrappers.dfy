/**
 * The optional value used throughout the model for TypeScript's optional
 * properties (`field?: string`) and for `undefined`/`null` results.
 */
module Wrappers {

  datatype Option<+T> = None | Some(value: T) {

    /** The nullish-coalescing operator `this ?? default`: only an absent value falls back. */
    function GetOr(default: T): T {
      match this
      case Some(v) => v
      case None => default
    }
  }
}

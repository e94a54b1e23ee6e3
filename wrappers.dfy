/** Optional values: the model's stand-in for TypeScript's `T | null`,
    `T | undefined` and optional (`?`) fields and parameters. */
module Wrappers {

  datatype Option<+T> = None | Some(value: T) {

    /** The wrapped value, or `default` when there is none (TypeScript's `??`). */
    function GetOr(default: T): T {
      match this
      case Some(v) => v
      case None => default
    }
  }
}

/** Optional values: TypeScript's `T | null` (and `T | undefined`). */
module Wrappers {
  datatype Option<+T> = None | Some(value: T) {
    /** `value ?? fallback` */
    function GetOr(fallback: T): T {
      match this
      case Some(v) => v
      case None => fallback
    }
  }
}

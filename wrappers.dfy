/** Optional values and the settled state of an awaited call. */
module Wrappers {

  /** A value that may be missing (`undefined` where the source returns `T | undefined`). */
  datatype Option<+T> = None | Some(value: T)

  /** How an awaited promise settles: it resolves to a value, or it rejects (the awaiting code sees a throw). */
  datatype Outcome<+T> = Resolved(value: T) | Rejected
}

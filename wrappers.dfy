/** The usual optional-value datatype, used for empty queue slots, null
    sentinels, a missing rate limiter and an unset formatter. */
module Wrappers {
  datatype Option<+T> = None | Some(value: T)
}

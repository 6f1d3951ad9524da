/** Option and Result, for values the bot may or may not have (a user name, a
    search outcome) and for a JavaScript expression that may throw. */
module Wrappers {

  datatype Option<+T> = None | Some(value: T)

  datatype Result<+R, +E> = Ok(value: R) | Thrown(error: E)
}

/** Option and Result: the error paths of the analyzer (a missing key, a value that
    fails to parse, an exception raised inside a check) are values, not preconditions. */
module Wrappers {

  datatype Option<+T> = None | Some(value: T)

  datatype Result<+T> = Ok(value: T) | Err(error: string)
}

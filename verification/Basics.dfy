/** Optional values and results, as the program's nil pointers and error returns are modelled. */
module Basics {

  datatype Option<+T> = None | Some(value: T) {
    function GetOr(default: T): T { if Some? then value else default }
  }

  datatype Result<+T, +E> = Ok(value: T) | Err(error: E)
}

// The two failure-carrying values the model returns where the program returns null or throws.
module Wrappers {
  datatype Option<+T> = None | Some(value: T) {
    function GetOr(otherwise: T): T {
      if Some? then value else otherwise
    }
  }

  datatype Result<+T, +E> = Ok(value: T) | Err(error: E)
}

/** Option and Result, used for the optional values the network and the
    device may leave out and for the exceptions the deployment script throws. */
module Wrappers {

  datatype Option<+T> = None | Some(value: T)

  datatype Result<+T, +E> = Ok(value: T) | Err(error: E)
}

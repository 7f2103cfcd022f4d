/** Option and Result, used throughout the model.
    `Option` stands for a Java reference that may be null (`None` is null);
    `Result` for a call that either returns or throws. */
module Wrappers {

  datatype Option<+T> = None | Some(value: T)

  datatype Result<+R, +E> = Ok(value: R) | Err(error: E)
}

/** Failure-carrying values shared by the whole model: `Option` stands for the
    Python `None`-or-value returns, `Result` for a value or a raised exception
    whose `str(e)` is the error text. */
module Wrappers {

  datatype Option<+T> = None | Some(value: T)

  datatype Result<+T, +E> = Ok(value: T) | Err(error: E)
}

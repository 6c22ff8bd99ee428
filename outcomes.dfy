/** Option and Result, the two failure-carrying shapes the model uses for
    `undefined`/`find` misses and for thrown errors. */
module Outcomes {

  datatype Option<+T> = None | Some(value: T)

  datatype Result<+T, +E> = Ok(value: T) | Err(error: E)
}

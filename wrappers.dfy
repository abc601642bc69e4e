/** The two wrappers the model uses: `Option` for a lookup that may miss or a field that
    may be absent, `Result` for an operation that may be rejected. */
module Wrappers {

  datatype Option<+T> = None | Some(value: T)

  datatype Result<+T, +E> = Ok(value: T) | Err(error: E)
}

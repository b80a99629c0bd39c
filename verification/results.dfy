/** Failure-carrying wrappers used by the model: `Option` for lookups that may
    find nothing, `Result` for calls into the USB stack that may fail. */
module Results {

  datatype Option<T> = None | Some(value: T)

  datatype Result<T, E> = Ok(value: T) | Err(error: E)
}

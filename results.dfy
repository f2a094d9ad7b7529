/** Go's two-valued returns: an optional value (a nil pointer or a missing map
    entry) and a value-or-error pair whose error carries the message text. */
module Results {

  datatype Option<T> = None | Some(value: T)

  datatype Result<T> = Ok(value: T) | Err(error: string)
}

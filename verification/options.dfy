/** Optional values and success/failure outcomes, used where the JavaScript
    code has `null`/`undefined` or throws. */
module Options {

  datatype Option<T> = None | Some(value: T)

  datatype Result<T, E> = Ok(value: T) | Err(error: E)
}

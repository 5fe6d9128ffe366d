/** Optional values and success/failure outcomes shared by every module. */
module Common {

  /** A JavaScript value that may be null or undefined. */
  datatype Option<T> = None | Some(value: T)

  /** `x || ''` on a string that may be missing. */
  function OrEmpty(x: Option<string>): string {
    match x
    case None => ""
    case Some(v) => v
  }

  /** The outcome of a request: the created record, or the reason it was refused. */
  datatype Result<T, E> = Ok(value: T) | Err(error: E)
}

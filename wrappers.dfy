/** Optional values and the outcome of an operation that may raise. */
module Wrappers {

  datatype Option<T> = None | Some(value: T)

  /** The Python exceptions the modelled code can raise on its inputs. */
  datatype Error =
    | KeyError(key: string)
    | TypeError(reason: string)
    | ValueError(text: string)

  datatype Result<T> = Ok(value: T) | Err(error: Error)
}

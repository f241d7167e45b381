/** Option, Result and the Python exceptions the modelled code can raise. */
module Results {

  datatype Option<+T> = None | Some(value: T)

  /** The exceptions that escape from the modelled functions and loops. */
  datatype Error =
    | KeyError(key: string)
    | IndexError(what: string)
    | ValueError(what: string)
    | AttributeError(what: string)
    /** next() on an exhausted file. */
    | StopIteration

  datatype Result<+T> = Ok(value: T) | Err(error: Error)
}

/** Outcomes of operations that raise a Python exception on failure.
    The error carries the exception's message, as `str(e)` renders it. */
module Results {

  datatype Result<+T> = Ok(value: T) | Err(message: string)

  datatype Option<+T> = None | Some(value: T)
}

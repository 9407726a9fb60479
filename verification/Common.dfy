/** Result types shared by the models. */
module Common {
  datatype Option<+T> = None | Some(value: T)

  /** An operation that raises is an Err, one that returns is an Ok. */
  datatype Result<+T, +E> = Ok(value: T) | Err(error: E)

  function Max(a: int, b: int): int { if a < b then b else a }

  function Min(a: int, b: int): int { if a < b then a else b }
}

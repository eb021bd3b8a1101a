/** Small shared definitions. */
module Prelude {
  datatype Option<+T> = None | Some(value: T)

  datatype Result<+T, +E> = Ok(value: T) | Err(error: E)

  /** 1 for true: for counting. */
  function One(b: bool): nat { if b then 1 else 0 }
}

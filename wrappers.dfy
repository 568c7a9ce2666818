/** Failure-carrying values: `Option` for the source's `None`/`""` sentinels,
    `Result` for the exceptions a Python expression can raise. `Result`
    supports `:-`, which stands for an exception propagating to the caller. */
module Wrappers {

  datatype Option<+T> = None | Some(value: T)

  datatype Result<+T, +E> = Ok(value: T) | Err(error: E) {
    predicate IsFailure() {
      Err?
    }

    function PropagateFailure<U>(): Result<U, E>
      requires Err?
    {
      Err(error)
    }

    function Extract(): T
      requires Ok?
    {
      value
    }
  }
}

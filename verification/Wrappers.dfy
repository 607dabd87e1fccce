/** Optional values and fallible results, shared by every component. */
module Wrappers {
  datatype Option<+T> = None | Some(value: T) {
    predicate IsFailure() { None? }
    function PropagateFailure<U>(): Option<U>
      requires None?
    {
      None
    }
    function Extract(): T
      requires Some?
    {
      value
    }
  }

  /** The outcome of an operation that can be refused. */
  datatype Result<+T> = Ok(value: T) | Err(error: string)
}

/** Failure-carrying values shared by every module of the model.

    The bound code reports failure in three ways, and the model keeps them apart:
    a driver call that returns a `VkResult` error and is propagated with `?`,
    the one descriptive error `RawBuffer::new` attaches when no memory type fits,
    and a panic (`unwrap`, `expect`, an out-of-range index), which ends the call. */
module Results {

  datatype Option<+T> = None | Some(value: T)

  datatype Error =
    | Vk(code: int)          // a negative `VkResult` handed back by a driver call
    | MemoryTypeNotFound     // no memory type satisfies the requirements and the visibility
    | Panic(message: string) // the call does not return at all

  /** The messages of the standard-library panics the bound code can reach. */
  const UNWRAP_NONE: string := "called `Option::unwrap()` on a `None` value"
  const UNWRAP_ERR: string := "called `Result::unwrap()` on an `Err` value"
  const INDEX_OUT_OF_BOUNDS: string := "index out of bounds"

  datatype Result<+T> = Ok(value: T) | Err(error: Error) {

    predicate IsFailure() {
      Err?
    }

    function PropagateFailure<U>(): Result<U>
      requires Err?
    {
      Err(error)
    }

    function Extract(): T
      requires Ok?
    {
      value
    }

    /** True when the call ended in a panic rather than returning. */
    predicate Panicked() {
      Err? && error.Panic?
    }
  }
}

/** Optional values and results of operations that can fail. */
module Wrappers {

  datatype Option<+T> = None | Some(value: T)

  /**
   * The outcome of an operation that raises in the source. The source's
   * KeyError, TypeError, AttributeError and RuntimeError all end the parse,
   * and no caller inspects which one it was, so a single `Err` stands for
   * all of them.
   */
  datatype Result<+T> = Ok(value: T) | Err {
    predicate IsFailure() {
      Err?
    }

    function PropagateFailure<U>(): Result<U>
      requires Err?
    {
      Err
    }

    function Extract(): T
      requires Ok?
    {
      value
    }
  }
}

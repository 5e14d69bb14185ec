/** Failure-carrying datatypes shared by every module of the model.

    - Option<T> stands for Rust's `Option<T>`.
    - Outcome<T, E> stands for Rust's `Result<T, E>`, extended with a third
      case for the two ways the command-line tool stops without returning a
      value: a panic (`unwrap`, `expect`, `todo!`) and an explicit process exit
      (the error helper that prints and calls `exit(1)`).
 */
module Wrappers {

  datatype Option<+T> = None | Some(value: T) {

    /** Returns the value in Some or the given default. */
    function GetOr(default: T): T {
      match this
      case Some(v) => v
      case None => default
    }
  }

  /** Why a run stopped without producing a value. */
  datatype Halt = Panic(site: string) | Exit(code: int)

  datatype Outcome<+T, +E> = Ok(value: T) | Err(error: E) | Halted(halt: Halt) {

    predicate IsFailure() {
      !Ok?
    }

    function PropagateFailure<U>(): Outcome<U, E>
      requires !Ok?
    {
      match this
      case Err(e) => Err(e)
      case Halted(h) => Halted(h)
    }

    function Extract(): T
      requires Ok?
    {
      value
    }
  }

  /** An optional argument that is present only when it is a non-empty string. */
  predicate NonEmpty(o: Option<string>) {
    o.Some? && |o.value| > 0
  }
}

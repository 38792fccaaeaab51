// Shared vocabulary: optional values, the chaincode's success and error responses, and time.
module Basics {
  datatype Option<+T> = None | Some(value: T)

  /** A chaincode response: a value to commit, or an error message. */
  datatype Result<+T> = Ok(value: T) | Err(error: string) {
    predicate IsFailure() {
      Err?
    }
    function PropagateFailure<U>(): Result<U>
      requires Err?
    {
      Err(error)
    }
    function Extract(): T
      requires Ok?
    {
      value
    }
  }

  /** The result of a guard: `:- Need(condition, message)` leaves the handler with an error response. */
  datatype Guard = Pass | Fail(error: string) {
    predicate IsFailure() {
      Fail?
    }
    function PropagateFailure<U>(): Result<U>
      requires Fail?
    {
      Err(error)
    }
  }

  function Need(condition: bool, error: string): Guard {
    if condition then Pass else Fail(error)
  }

  function OrZero(x: Option<int>): int {
    if x.Some? then x.value else 0
  }

  function Min(a: int, b: int): int {
    if a <= b then a else b
  }

  /** One for true, zero for false: for counting. */
  function Once(b: bool): nat {
    if b then 1 else 0
  }

  type Pos = x: int | 0 < x witness 1

  /** Nanoseconds since the Unix epoch. */
  type Time = int

  const SECOND: int := 1_000_000_000
  const MINUTE: int := 60 * SECOND
}

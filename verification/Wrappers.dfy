/** Failure-compatible values shared by every part of the model, and the 64-bit
    unsigned range the program stores amounts and heights in. */
module Wrappers {
  const U64_BOUND: nat := 0x1_0000_0000_0000_0000

  type U64 = n: nat | n < U64_BOUND

  datatype Option<+T> = None | Some(value: T) {
    predicate IsFailure() { None? }

    function PropagateFailure<U>(): Option<U>
      requires None?
    {
      None
    }

    function Extract(): T
      requires Some?
    {
      value
    }

    function UnwrapOr(default: T): T {
      if Some? then value else default
    }
  }

  datatype Result<+T, +E> = Ok(value: T) | Err(error: E) {
    predicate IsFailure() { Err? }

    function PropagateFailure<U>(): Result<U, E>
      requires Err?
    {
      Err(error)
    }

    function Extract(): T
      requires Ok?
    {
      value
    }
  }

  function CheckedAdd(a: U64, b: U64): Option<U64> {
    if a + b < U64_BOUND then Some(a + b) else None
  }

  function CheckedSub(a: U64, b: U64): Option<U64> {
    if b <= a then Some(a - b) else None
  }

  function CheckedMul(a: U64, b: U64): Option<U64> {
    if a * b < U64_BOUND then Some(a * b) else None
  }

  function SaturatingAdd(a: U64, b: U64): U64 {
    if a + b < U64_BOUND then a + b else U64_BOUND - 1
  }

  function SaturatingSub(a: U64, b: U64): U64 {
    if b <= a then a - b else 0
  }

  function Min(a: U64, b: U64): U64 {
    if a <= b then a else b
  }
}

/** Small shared vocabulary: optional values and computations that may throw. */
module Prelude {

  datatype Option<+T> = None | Some(value: T) {
    function GetOr(default: T): T {
      match this
      case Some(v) => v
      case None => default
    }
  }

  /** The outcome of code that may throw: a value, or the reason the engine would report. */
  datatype Result<+T> = Ok(value: T) | Err(error: Failure) {
    predicate IsFailure() { Err? }

    function PropagateFailure<U>(): (r: Result<U>)
      requires Err?
    {
      Err(error)
    }

    function Extract(): T
      requires Ok?
    {
      value
    }
  }

  /** The exceptions the engine distinguishes; everything but the last two is an internal error. */
  datatype Failure =
    | OutOfRange
    | BadDivisor
    | BadRate
    | NoBuckets
    | DuplicateKey
    | NotADecimal
    | TooPrecise
    | BadTimezone
    | BadInstant

  function Max(a: int, b: int): int { if a < b then b else a }

  function Min(a: int, b: int): int { if b < a then b else a }

  function Abs(a: int): int { if a < 0 then -a else a }

  /** No two positions hold the same value. */
  ghost predicate Distinct<T>(xs: seq<T>) {
    forall i, j :: 0 <= i < j < |xs| ==> xs[i] != xs[j]
  }
}

/** Failure-carrying values shared by every workflow module.

    The workflows raise Python exceptions (`ValueError`, `PermissionError`),
    almost always before they change anything (task assignment is the
    exception: it links the workers before the first outsider and then
    raises); here an operation that can fail returns an
    `Outcome` or a `Result` instead, and the error carries the exception's
    kind and message. */
module Errors {

  /** The two exception kinds the workflows raise, with their messages. */
  datatype Error = ValueError(message: string) | PermissionError(message: string)

  /** The result of an operation that returns nothing when it succeeds. */
  datatype Outcome<E> = Pass | Fail(error: E)

  /** The result of an operation that returns a value when it succeeds. */
  datatype Result<T, E> = Ok(value: T) | Err(error: E) {

    /** The value when this is `Ok`, otherwise `default`: the state a caller
        sees after an operation that leaves everything unchanged on error. */
    function GetOr(default: T): T {
      if Ok? then value else default
    }

    /** Forgets the value. */
    function ToOutcome(): Outcome<E> {
      if Ok? then Pass else Fail(error)
    }
  }

  datatype Option<T> = None | Some(value: T)

  function Digit(d: nat): char
    requires d < 10
  {
    ['0', '1', '2', '3', '4', '5', '6', '7', '8', '9'][d]
  }

  /** Decimal rendering of a natural number, as Python's `str` gives it. */
  function NatToString(n: nat): (s: string)
    ensures |s| >= 1
    ensures forall i :: 0 <= i < |s| ==> '0' <= s[i] <= '9'
    ensures n < 10 ==> s == [Digit(n)]
  {
    if n < 10 then [Digit(n)] else NatToString(n / 10) + [Digit(n % 10)]
  }

  /** Decimal rendering of an integer, with a leading minus sign when negative. */
  function IntToString(n: int): string {
    if n < 0 then "-" + NatToString(-n) else NatToString(n)
  }
}

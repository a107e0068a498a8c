/** Failure-compatible result types and the text and integer checks every component shares. */
module Basics {

  datatype Option<+T> = None | Some(value: T)

  /** The outcome of an operation that the program reports by throwing. */
  datatype Result<+T, +E> = Success(value: T) | Failure(error: E) {
    predicate IsFailure() { Failure? }

    function PropagateFailure<U>(): Result<U, E>
      requires Failure?
    {
      Failure(error)
    }

    function Extract(): T
      requires Success?
    {
      value
    }
  }

  /** The outcome of a guard: `:- Need(condition, error);` stops with the error unless the condition holds. */
  datatype Guard<+E> = Pass | Stop(error: E) {
    predicate IsFailure() { Stop? }

    function PropagateFailure<U>(): Result<U, E>
      requires Stop?
    {
      Failure(error)
    }
  }

  function Need<E>(condition: bool, error: E): Guard<E> {
    if condition then Pass else Stop(error)
  }

  /** Largest integer that a double represents together with its successor. */
  const MAX_SAFE_INTEGER: nat := 9007199254740991

  /** What ECMAScript's `trim` strips: white space and line terminators (sections 12.2 and 12.3 of ECMA-262). */
  predicate IsSpace(c: char) {
    || '\U{0009}' <= c <= '\U{000D}' || c == ' ' || c == '\U{00A0}' || c == '\U{1680}'
    || '\U{2000}' <= c <= '\U{200A}' || '\U{2028}' <= c <= '\U{2029}' || c == '\U{202F}' || c == '\U{205F}'
    || c == '\U{3000}' || c == '\U{FEFF}'
  }

  /** A string is usable text when trimming it leaves something. */
  predicate Text(s: string) {
    exists i :: 0 <= i < |s| && !IsSpace(s[i])
  }
}

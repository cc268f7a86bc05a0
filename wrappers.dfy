/** Optional values, awaited outcomes and the JavaScript truthiness rules the client relies on. */
module Wrappers {

  /** `T | null | undefined` in the client's types. */
  datatype Option<+T> = None | Some(value: T)

  /** What a rejected promise carries: an `Error` object with its message, or any other thrown value. */
  datatype Failure = ErrorObject(message: string) | OtherValue

  /** The settled state of one awaited call. */
  datatype Outcome<+T> = Ok(value: T) | Err(failure: Failure)

  /** `error instanceof Error ? error.message : fallback`, the message every catch block stores. */
  function Message(f: Failure, fallback: string): (m: string)
    ensures f.ErrorObject? ==> m == f.message
    ensures f.OtherValue? ==> m == fallback
  {
    match f
    case ErrorObject(msg) => msg
    case OtherValue => fallback
  }

  /** A string is truthy exactly when it is not empty. */
  predicate Truthy(s: string) {
    s != ""
  }

  /** `null`/`undefined` and the empty string are falsy; every other string is truthy. */
  predicate TruthyOpt(o: Option<string>) {
    o.Some? && Truthy(o.value)
  }

  /** `x || null` on a `string | null`: falsy values collapse to null. */
  function OrNull(o: Option<string>): (r: Option<string>)
    ensures r.Some? <==> TruthyOpt(o)
    ensures r.Some? ==> r == o
  {
    if TruthyOpt(o) then o else None
  }
}

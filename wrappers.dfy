/** Option, HTTP outcomes and JSON request fields, shared by every handler. */
module Wrappers {

  datatype Option<+T> = None | Some(value: T)

  /** What a route handler answers: a value (2xx) or an HTTP status with its error text. */
  datatype Result<+T> = Ok(value: T) | Err(status: int, message: string)

  /**
   * One field of a parsed JSON body or query: missing (`undefined`), `null`, or a value.
   * The three cases are kept apart because the handlers test them differently:
   * `x === undefined`, `x ?? d` and `x || d` each draw the line elsewhere.
   */
  datatype Field<+T> = Absent | Null | Value(v: T)
  {
    /** `x ?? d`: only `undefined` and `null` fall back to the default. */
    function OrElse(d: T): T
    {
      if Value? then v else d
    }

    /** The field as an optional value, `undefined` and `null` both counting as missing. */
    function ToOption(): Option<T>
    {
      if Value? then Some(v) else None
    }
  }

  /** JavaScript truthiness of a string field: missing, `null` and `""` are falsy. */
  predicate TruthyString(f: Field<string>)
  {
    f.Value? && f.v != ""
  }

  /** JavaScript truthiness of a number field: missing, `null` and `0` are falsy (NaN is not modelled). */
  predicate TruthyNumber(f: Field<real>)
  {
    f.Value? && f.v != 0.0
  }

  /** `s || d` on a string field. */
  function StringOr(f: Field<string>, d: string): (r: string)
    ensures TruthyString(f) ==> r == f.v
    ensures !TruthyString(f) ==> r == d
  {
    if TruthyString(f) then f.v else d
  }

  /** `x || d` on a number field. */
  function NumberOr(f: Field<real>, d: real): (r: real)
    ensures TruthyNumber(f) ==> r == f.v
    ensures !TruthyNumber(f) ==> r == d
  {
    if TruthyNumber(f) then f.v else d
  }
}

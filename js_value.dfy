/**
 * JavaScript values as the invoicing core sees them: optional fields and the
 * `x || d` defaulting idiom the engine uses for absent numbers and strings.
 */
module JsValue {

  /** An optional record field (`field?: T`, or a value that may be `undefined`). */
  datatype Option<+T> = None | Some(value: T)

  /**
   * `x || 0` on an optional number: `undefined` and `0` are falsy and give 0,
   * any other number is kept. (NaN, also falsy in JavaScript, has no
   * counterpart among exact reals.)
   */
  function OrZero(x: Option<real>): real
  {
    if x.Some? then x.value else 0.0
  }

  /**
   * `s || d` on an optional string: `undefined` and the empty string are
   * falsy and give `d`.
   */
  function OrElse(s: Option<string>, d: string): string
  {
    if s.Some? && s.value != "" then s.value else d
  }
}

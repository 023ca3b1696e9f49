/** The few JavaScript values the booking flow inspects, and their truthiness. */
module Js {

  /** A value that may be `undefined` (a missing object key or optional prop). */
  datatype Option<+T> = None | Some(value: T)

  /** A JavaScript number. Only what truthiness can tell apart is kept:
      `+0` and `-0` are both `Finite(0.0)`. */
  datatype JsNumber = Finite(value: real) | Infinity(negative: bool) | NaN

  /** `!!n` for a number that may be `undefined`: `undefined`, `0`, `-0` and `NaN` are falsy. */
  predicate NumberTruthy(n: Option<JsNumber>)
  {
    match n
    case None => false
    case Some(Finite(v)) => v != 0.0
    case Some(Infinity(_)) => true
    case Some(NaN) => false
  }

  /** `!!s` for a string that may be `undefined`: `undefined` and `""` are falsy. */
  predicate StringTruthy(s: Option<string>)
  {
    s.Some? && s.value != ""
  }

  /** A number after `JSON.stringify` and `JSON.parse`: a finite number comes back as it
      was, while `Infinity`, `-Infinity` and `NaN` are written as `null`, which a truthiness
      test cannot tell from a missing key. */
  function JsonNumber(n: Option<JsNumber>): (r: Option<JsNumber>)
    ensures n.Some? && n.value.Finite? ==> r == n
    ensures NumberTruthy(r) <==> NumberTruthy(n) && n.value.Finite?
  {
    match n
    case Some(Finite(_)) => n
    case _ => None
  }
}

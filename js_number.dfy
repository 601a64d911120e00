/**
 * The numeric fields of the weather provider's response as JavaScript sees
 * them: a number (kept as an exact `real`), `NaN`, `null`, or `undefined` when
 * the field is missing. Only the two operations the dashboard applies to such
 * fields are modelled: `<=` against a numeric literal, and truthiness.
 */
module JsNumber {

  datatype JsNum = Num(value: real) | NaN | Null | Undefined

  /**
   * The number a field converts to before a comparison (`ToNumber`): `null`
   * becomes 0 and `undefined` becomes NaN; numbers and NaN stay as they are.
   */
  function ToNumeric(x: JsNum): (n: JsNum)
    ensures n.Num? || n == NaN
    ensures x.Num? ==> n == x
    ensures x == Null ==> n == Num(0.0)
    ensures x == Undefined ==> n == NaN
    ensures x == NaN ==> n == NaN
  {
    match x
    case Num(v) => x
    case Null => Num(0.0)
    case NaN => NaN
    case Undefined => NaN
  }

  /**
   * `x <= bound` as JavaScript evaluates it: both sides are converted to
   * numbers and the comparison is false when one of them is NaN.
   */
  function AtMost(x: JsNum, bound: real): (r: bool)
    ensures r <==> ToNumeric(x).Num? && ToNumeric(x).value <= bound
  {
    match x
    case Num(v) => v <= bound
    case Null => 0.0 <= bound
    case NaN => false
    case Undefined => false
  }

  /**
   * JavaScript truthiness of a numeric field: `0`, `NaN`, `null` and
   * `undefined` are falsy. It agrees with the truthiness of the field's
   * numeric conversion.
   */
  function Truthy(x: JsNum): (r: bool)
    ensures r ==> x.Num?
    ensures r <==> ToNumeric(x).Num? && ToNumeric(x).value != 0.0
  {
    x.Num? && x.value != 0.0
  }
}

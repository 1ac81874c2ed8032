/** Small value types shared by every module of the model. */
module Common {

  /** JavaScript's `null`/`undefined` versus a present value. */
  datatype Option<T> = None | Some(value: T) {
    function GetOr(default: T): T {
      match this
      case Some(v) => v
      case None => default
    }
  }

  /**
   * What `parseFloat`, `parseInt` and the JSON number fields produce: a
   * number or NaN. Infinities and IEEE-754 rounding are not modelled; a
   * finite number is an exact `real`.
   */
  datatype JsNumber = Finite(value: real) | NaN

  /** `x || 0` for a parsed number: NaN becomes 0 and every finite
      number is kept (`0 || 0` is 0 as well). */
  function OrZero(n: JsNumber): (r: real)
    ensures n.NaN? ==> r == 0.0
    ensures n.Finite? ==> r == n.value
  {
    match n
    case Finite(v) => v
    case NaN => 0.0
  }

  function Max(a: real, b: real): real {
    if a >= b then a else b
  }
}

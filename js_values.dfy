/** Optional values and the JavaScript truthiness rules the booking model relies on.
    A document field that is unset (undefined or null) is `None`; a set field is `Some`.
    Numbers are exact reals, so NaN does not arise. */
module JsValues {

  datatype Option<+T> = None | Some(value: T)

  /** A JavaScript number field is truthy exactly when it is set and non-zero. */
  predicate Truthy(n: Option<real>) {
    n.Some? && n.value != 0.0
  }

  /** JavaScript `a || b` for a possibly unset number `a` and a number `b`. */
  function OrElse(a: Option<real>, b: real): real {
    if Truthy(a) then a.value else b
  }

  /** JavaScript `a || 0`. */
  function OrZero(a: Option<real>): real {
    OrElse(a, 0.0)
  }
}

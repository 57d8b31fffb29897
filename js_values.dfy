/** The few host-language values that the player's logic depends on. */
module JsValues {

  /** An optional value: an attribute that may be absent, a handle that may still be `null`. */
  datatype Option<+T> = None | Some(value: T)

  /**
    * The outcome of JavaScript's `Number(...)` conversion of an attribute or
    * an input value. Only NaN and finite values are represented.
    */
  datatype JsNumber = NaN | Num(value: real)

  /** JavaScript truthiness of a number: every number except 0 and NaN. */
  predicate Truthy(n: JsNumber) {
    n.Num? && n.value != 0.0
  }

  /**
    * `n || fallback` on numbers: the value of `n` when it is truthy, the
    * fallback otherwise. A truthy fallback can therefore never be replaced by
    * 0 or NaN.
    */
  function OrElse(n: JsNumber, fallback: real): (r: real)
    ensures fallback != 0.0 ==> r != 0.0
    ensures r == fallback || (n == Num(r) && r != 0.0)
    ensures Truthy(n) ==> r == n.value
  {
    if Truthy(n) then n.value else fallback
  }

  /** `a || b` on two measured (never NaN) numbers. */
  function OrReal(a: real, b: real): (r: real)
    ensures a != 0.0 ==> r == a
    ensures a == 0.0 ==> r == b
  {
    if a != 0.0 then a else b
  }
}

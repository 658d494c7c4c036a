/** The JavaScript `Number` values the source produces by calling `Number(...)`
    on request strings. Parsing itself is not modelled: a handler receives the
    parsed value, or a `string -> JsNumber` function standing for `Number`. */
module JsValues {

  datatype JsNumber = Num(value: real) | NaN | PosInfinity | NegInfinity {

    /** `Number.isFinite(n)`. */
    predicate IsFinite() { Num? }

    /** Truthiness of a number: everything but `0` and `NaN`. */
    predicate Truthy() { !NaN? && !(Num? && value == 0.0) }
  }

  /** `Math.max(lo, Math.min(hi, n || dflt))` for the bounds the handlers use. */
  function ClampOr(n: JsNumber, dflt: real, lo: real, hi: real): (r: real)
    requires lo <= dflt <= hi
    ensures lo <= r <= hi
    ensures !n.Truthy() ==> r == dflt
    ensures n.Num? && n.Truthy() && lo <= n.value <= hi ==> r == n.value
    ensures n.Num? && n.Truthy() && n.value > hi ==> r == hi
    ensures n.Num? && n.Truthy() && n.value < lo ==> r == lo
    ensures n.PosInfinity? ==> r == hi
    ensures n.NegInfinity? ==> r == lo
  {
    if !n.Truthy() then dflt
    else match n
      case Num(v) => if v > hi then hi else if v < lo then lo else v
      case PosInfinity => hi
      case NegInfinity => lo
      case NaN => dflt
  }
}

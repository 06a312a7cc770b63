/** The part of JavaScript number semantics the sweeps depend on: a number is
    either a finite amount or NaN, and NaN absorbs every arithmetic operation.
    Infinities and rounding are not modelled. */
module JsNumber {
  import Numeric

  datatype Number = Num(value: real) | NaN

  function Add(a: Number, b: Number): (r: Number)
    ensures r.Num? <==> a.Num? && b.Num?
    ensures r.Num? ==> r.value == a.value + b.value
  {
    if a.Num? && b.Num? then Num(a.value + b.value) else NaN
  }

  function Sub(a: Number, b: Number): (r: Number)
    ensures r.Num? <==> a.Num? && b.Num?
    ensures r.Num? ==> r.value == a.value - b.value
  {
    if a.Num? && b.Num? then Num(a.value - b.value) else NaN
  }

  function Mul(a: Number, b: Number): (r: Number)
    ensures r.Num? <==> a.Num? && b.Num?
    ensures r.Num? ==> r.value == a.value * b.value
  {
    if a.Num? && b.Num? then Num(a.value * b.value) else NaN
  }

  /** Division by a nonzero amount. */
  function DivBy(a: Number, d: real): (r: Number)
    requires d != 0.0
    ensures r.Num? <==> a.Num?
    ensures r.Num? ==> r.value * d == a.value
  {
    if a.Num? then Num(a.value / d) else NaN
  }

  /** Division of two amounts: 0 / 0 is NaN. A nonzero amount divided by 0
      is an infinity, which is not modelled. */
  function Quotient(a: real, d: real): (r: Number)
    requires d != 0.0 || a == 0.0
    ensures r.Num? <==> d != 0.0
    ensures r.Num? ==> r.value * d == a
  {
    if d != 0.0 then Num(a / d) else NaN
  }

  /** Math.max: NaN as soon as either argument is NaN. */
  function Max(a: Number, b: Number): (r: Number)
    ensures r.Num? <==> a.Num? && b.Num?
    ensures r.Num? ==> r.value >= a.value && r.value >= b.value
    ensures r.Num? ==> r.value == a.value || r.value == b.value
  {
    if a.Num? && b.Num? then Num(Numeric.Max(a.value, b.value)) else NaN
  }

  /** The comparison `a > 0`, which is false for NaN. */
  predicate IsPositive(a: Number)
  {
    a.Num? && a.value > 0.0
  }
}

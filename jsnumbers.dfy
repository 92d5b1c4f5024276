/** JavaScript values as they reach the validation rule, their conversion to
    a Number, and the IsLessThan abstract operation with the `>=` and `<=`
    operators on Numbers, following the ECMAScript Language Specification.

    Only the values a measurement field can hold are modelled: `undefined`
    (a missing field), `null`, and a Number. A Number is an exact real, NaN
    or one of the two infinities; IEEE-754 rounding and the sign of zero are
    not modelled. */
module JsNumbers {

  /** A JavaScript Number. */
  datatype Num = Fin(r: real) | NaN | PosInf | NegInf

  /** A JavaScript value that a measurement field may hold. */
  datatype JsValue = Undefined | Null | Number(n: Num)

  /** ToNumeric on the values above: `undefined` is NaN, `null` is +0. */
  function ToNumber(v: JsValue): (n: Num)
    ensures v.Number? ==> n == v.n
    ensures n.NaN? <==> v.Undefined? || v == Number(NaN)
    ensures n.Fin? <==> v.Null? || (v.Number? && v.n.Fin?)
    ensures v.Null? ==> n.r == 0.0
  {
    match v
    case Undefined => NaN
    case Null => Fin(0.0)
    case Number(n) => n
  }

  /** The outcome of IsLessThan: true, false, or undefined when NaN is involved. */
  datatype Comparison = Less | NotLess | Unordered

  /** IsLessThan(x, y) on two Numbers. */
  function IsLessThan(x: Num, y: Num): (c: Comparison)
    ensures c == Unordered <==> x.NaN? || y.NaN?
    ensures x.Fin? && y.Fin? ==> (c == Less <==> x.r < y.r)
    ensures c == Less ==> !x.PosInf? && !y.NegInf? && x != y
    ensures !x.NaN? && !y.NaN? && x != y && (x.NegInf? || y.PosInf?) ==> c == Less
  {
    if x.NaN? || y.NaN? then Unordered
    else if x == y then NotLess
    else if x.PosInf? || y.NegInf? then NotLess
    else if x.NegInf? || y.PosInf? then Less
    else if x.r < y.r then Less else NotLess
  }

  /** `x >= y`: false when IsLessThan(x, y) is true or undefined. */
  function GreaterOrEqual(x: Num, y: Num): (b: bool)
    ensures x.NaN? || y.NaN? ==> !b
    ensures x.Fin? && y.Fin? ==> (b <==> y.r <= x.r)
    ensures !x.NaN? && !y.NaN? && (x.PosInf? || y.NegInf?) ==> b
    ensures x.NegInf? && !y.NegInf? ==> !b
    ensures y.PosInf? && !x.PosInf? ==> !b
  {
    IsLessThan(x, y) == NotLess
  }

  /** `x <= y`: false when IsLessThan(y, x) is true or undefined. */
  function LessOrEqual(x: Num, y: Num): (b: bool)
    ensures x.NaN? || y.NaN? ==> !b
    ensures x.Fin? && y.Fin? ==> (b <==> x.r <= y.r)
    ensures !x.NaN? && !y.NaN? && (x.NegInf? || y.PosInf?) ==> b
    ensures x.PosInf? && !y.PosInf? ==> !b
    ensures y.NegInf? && !x.NegInf? ==> !b
  {
    IsLessThan(y, x) == NotLess
  }

  /** The reference meaning of a closed interval: `n` is a finite Number
      lying between `lo` and `hi`, both ends included. */
  predicate InClosed(n: Num, lo: real, hi: real) {
    n.Fin? && lo <= n.r <= hi
  }
}

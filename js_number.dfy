/** JavaScript number arithmetic that the engine relies on, written out over
    Dafny's unbounded reals: `Math.floor`, `Math.ceil`, `Math.round`, and the
    quotients and products that can leave the finite reals. */
module JsNumber {

  /** A JavaScript number: a finite value, or one of the IEEE specials. */
  datatype Num = Finite(value: real) | NaN | PosInfinity | NegInfinity {

    /** JavaScript truthiness of a number: 0 and NaN are falsy. */
    predicate Truthy() {
      match this
      case Finite(v) => v != 0.0
      case NaN => false
      case _ => true
    }
  }

  function Abs(x: real): (r: real)
    ensures r >= 0.0 && (r == x || r == -x)
  {
    if x < 0.0 then -x else x
  }

  function Min(a: int, b: int): (r: int)
    ensures r <= a && r <= b && (r == a || r == b)
  {
    if a <= b then a else b
  }

  function Max(a: int, b: int): (r: int)
    ensures r >= a && r >= b && (r == a || r == b)
  {
    if a >= b then a else b
  }

  /** `Math.floor`: the greatest integer not above `x`. */
  function Floor(x: real): (r: int)
    ensures r as real <= x < r as real + 1.0
  {
    x.Floor
  }

  /** `Math.ceil`: the least integer not below `x`. */
  function Ceil(x: real): (r: int)
    ensures x <= r as real < x + 1.0
  {
    -((-x).Floor)
  }

  /** `Math.round`: the nearest integer, halves rounded towards +Infinity. */
  function Round(x: real): (r: int)
    ensures r as real - 0.5 <= x < r as real + 0.5
  {
    (x + 0.5).Floor
  }

  /** The IEEE quotient `a / b` of two finite numbers. */
  function Div(a: real, b: real): (r: Num)
    ensures b != 0.0 ==> r == Finite(a / b)
    ensures b == 0.0 ==> (r.NaN? <==> a == 0.0)
    ensures b == 0.0 ==> (r.PosInfinity? <==> a > 0.0) && (r.NegInfinity? <==> a < 0.0)
  {
    if b != 0.0 then Finite(a / b)
    else if a == 0.0 then NaN
    else if a > 0.0 then PosInfinity
    else NegInfinity
  }

  /** The IEEE product of a number and a finite factor. */
  function Mul(a: Num, k: real): (r: Num)
    ensures a.Finite? ==> r == Finite(a.value * k)
    ensures a.NaN? ==> r.NaN?
    ensures !a.Finite? && k == 0.0 ==> r.NaN?
    ensures a.PosInfinity? && k > 0.0 ==> r.PosInfinity?
  {
    match a
    case Finite(_) => Finite(a.value * k)
    case NaN => NaN
    case PosInfinity => if k > 0.0 then PosInfinity else if k < 0.0 then NegInfinity else NaN
    case NegInfinity => if k > 0.0 then NegInfinity else if k < 0.0 then PosInfinity else NaN
  }

  /** The IEEE sum of a number and a finite addend. */
  function Add(a: Num, k: real): (r: Num)
    ensures a.Finite? ==> r == Finite(a.value + k)
    ensures !a.Finite? ==> r == a
  {
    match a
    case Finite(v) => Finite(v + k)
    case _ => a
  }
}

/** Lua's numbers: the reals with the infinities and NaN. Rounding and the sign of zero are not modelled. */
module Numbers {

  datatype Number = Fin(r: real) | Inf(negative: bool) | NaN

  const ZERO := Fin(0.0)
  const ONE := Fin(1.0)

  // ----- comparison -----

  predicate NumEq(x: Number, y: Number) {
    x == y && !x.NaN?
  }

  predicate NumLt(x: Number, y: Number) {
    match x
    case NaN => false
    case Fin(a) => if y.Fin? then a < y.r else y == Inf(false)
    case Inf(negative) => negative && !y.NaN? && y != Inf(true)
  }

  predicate NumLe(x: Number, y: Number) {
    match x
    case NaN => false
    case Fin(a) => if y.Fin? then a <= y.r else y == Inf(false)
    case Inf(negative) => if negative then !y.NaN? else y == Inf(false)
  }

  // ----- arithmetic -----

  function NumNeg(x: Number): Number {
    match x
    case Fin(a) => Fin(-a)
    case Inf(negative) => Inf(!negative)
    case NaN => NaN
  }

  function NumAdd(x: Number, y: Number): Number {
    if x.NaN? || y.NaN? then NaN
    else if x.Inf? then if y == Inf(!x.negative) then NaN else x
    else if y.Inf? then y
    else Fin(x.r + y.r)
  }

  function NumSub(x: Number, y: Number): Number {
    NumAdd(x, NumNeg(y))
  }

  predicate IsNegative(x: Number) {
    NumLt(x, ZERO)
  }

  function NumMul(x: Number, y: Number): Number {
    if x.NaN? || y.NaN? then NaN
    else if x.Inf? || y.Inf? then if x == ZERO || y == ZERO then NaN else Inf(IsNegative(x) != IsNegative(y))
    else Fin(x.r * y.r)
  }

  function NumDiv(x: Number, y: Number): Number {
    if x.NaN? || y.NaN? then NaN
    else if x.Inf? then if y.Inf? then NaN else Inf(x.negative != IsNegative(y))
    else if y.Inf? then ZERO
    else if y.r == 0.0 then if x.r == 0.0 then NaN else Inf(x.r < 0.0)
    else Fin(x.r / y.r)
  }

  function NumFloor(x: Number): Number {
    if x.Fin? then Fin(x.r.Floor as real) else x
  }

  /** `luai_nummod` */
  function NumMod(x: Number, y: Number): Number {
    NumSub(x, NumMul(NumFloor(NumDiv(x, y)), y))
  }

  function Power(x: real, n: nat): real {
    if n == 0 then 1.0 else x * Power(x, n - 1)
  }

  predicate IsInteger(x: real) {
    x == x.Floor as real
  }

  lemma {:induction false} PowerNotZero(x: real, n: nat)
    requires x != 0.0
    ensures Power(x, n) != 0.0
  {
    if n > 0 { PowerNotZero(x, n - 1); }
  }

  /** The power of a finite base and a finite exponent. A root of a positive base is not computed: its value stands for
      it as NaN. */
  function FinPow(x: real, y: real): Number {
    if !IsInteger(y) then
      if x == 0.0 then if y > 0.0 then ZERO else Inf(false)
      else NaN
    else if y >= 0.0 then Fin(Power(x, y.Floor))
    else if x == 0.0 then Inf(false)
    else
      PowerNotZero(x, -y.Floor);
      Fin(1.0 / Power(x, -y.Floor))
  }

  /** The C function `pow` */
  function NumPow(x: Number, y: Number): Number {
    if y == ZERO || x == ONE then ONE
    else if x.NaN? || y.NaN? then NaN
    else if x.Fin? && y.Fin? then FinPow(x.r, y.r)
    else if y.Inf? then
      if x == Fin(-1.0) then ONE
      else if (x.Fin? && -1.0 < x.r < 1.0) == y.negative then Inf(false)
      else ZERO
    else if y.r < 0.0 then ZERO
    else Inf(x.negative && IsInteger(y.r) && y.r.Floor % 2 == 1)
  }
}

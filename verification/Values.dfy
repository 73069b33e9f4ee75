/** Lua values as the expression compiler and the virtual machine see them. */
module Values {

  import opened Numbers

  datatype Value = Nil | Bool(b: bool) | Num(n: Number) | Str(s: string)

  /** The outcome of an operation that may raise a run-time error. */
  datatype Res<+T> = Ok(value: T) | Fail

  datatype ArithOp = Add | Sub | Mul | Div | Mod | Pow
  datatype CmpOp = Eq | Lt | Le

  /** `l_isfalse`: only nil and false are false. */
  predicate IsFalse(v: Value) {
    v == Nil || v == Bool(false)
  }

  /** `luaO_arith`; compile-time folding and the machine share it. */
  function ArithNum(op: ArithOp, x: Number, y: Number): Number {
    match op
    case Add => NumAdd(x, y)
    case Sub => NumSub(x, y)
    case Mul => NumMul(x, y)
    case Div => NumDiv(x, y)
    case Mod => NumMod(x, y)
    case Pow => NumPow(x, y)
  }

  function ArithValue(op: ArithOp, x: Value, y: Value): Res<Value> {
    if x.Num? && y.Num? then Ok(Num(ArithNum(op, x.n, y.n))) else Fail
  }

  function NegValue(x: Value): Res<Value> {
    if x.Num? then Ok(Num(NumNeg(x.n))) else Fail
  }

  function LenValue(x: Value): Res<Value> {
    if x.Str? then Ok(Num(Fin(|x.s| as real))) else Fail
  }

  predicate StrLess(x: string, y: string) {
    y != [] && (x == [] || x[0] < y[0] || (x[0] == y[0] && StrLess(x[1..], y[1..])))
  }

  predicate RawEqual(x: Value, y: Value) {
    if x.Num? && y.Num? then NumEq(x.n, y.n) else x == y
  }

  /** Equality is raw; order is defined on two numbers or two strings only. */
  function CmpValue(op: CmpOp, x: Value, y: Value): Res<bool> {
    match op
    case Eq => Ok(RawEqual(x, y))
    case Lt =>
      if x.Num? && y.Num? then Ok(NumLt(x.n, y.n))
      else if x.Str? && y.Str? then Ok(StrLess(x.s, y.s))
      else Fail
    case Le =>
      if x.Num? && y.Num? then Ok(NumLe(x.n, y.n))
      else if x.Str? && y.Str? then Ok(!StrLess(y.s, x.s))
      else Fail
  }
}

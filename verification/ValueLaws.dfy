/** What comparison and arithmetic promise, apart from how they are computed. */
module ValueLaws {
  import opened Numbers
  import opened Values

  predicate BothNumbers(v: Value, w: Value) { v.Num? && w.Num? }
  predicate BothStrings(v: Value, w: Value) { v.Str? && w.Str? }

  /** Two numbers other than NaN, or two strings. */
  predicate Ordered(v: Value, w: Value) {
    BothStrings(v, w) || (BothNumbers(v, w) && !v.n.NaN? && !w.n.NaN?)
  }

  predicate Less(v: Value, w: Value) { CmpValue(Lt, v, w) == Ok(true) }
  predicate AtMost(v: Value, w: Value) { CmpValue(Le, v, w) == Ok(true) }
  predicate Same(v: Value, w: Value) { CmpValue(Eq, v, w) == Ok(true) }

  // ----- order -----

  /** Order raises an error exactly for operands that are neither two numbers nor two strings; equality never does. */
  lemma OrderDefined(v: Value, w: Value)
    ensures CmpValue(Eq, v, w).Ok?
    ensures CmpValue(Lt, v, w).Ok? <==> BothNumbers(v, w) || BothStrings(v, w)
    ensures CmpValue(Le, v, w).Ok? <==> BothNumbers(v, w) || BothStrings(v, w)
    ensures Same(v, w) <==> v == w && v != Num(NaN)
  {
  }

  /** `<=` is `<` or `==`, and of `<`, `==` and `>` exactly one holds; with NaN none does. */
  lemma Trichotomy(v: Value, w: Value)
    requires BothNumbers(v, w) || BothStrings(v, w)
    ensures AtMost(v, w) <==> Less(v, w) || Same(v, w)
    ensures Ordered(v, w) ==> Less(v, w) || Same(v, w) || Less(w, v)
    ensures !(Less(v, w) && Same(v, w)) && !(Less(v, w) && Less(w, v)) && !(Same(v, w) && Less(w, v))
    ensures !Ordered(v, w) ==> !Less(v, w) && !AtMost(v, w) && !Same(v, w)
  {
    if v.Str? { StrTrichotomy(v.s, w.s); }
  }

  lemma {:induction false} StrTrichotomy(x: string, y: string)
    ensures StrLess(x, y) || x == y || StrLess(y, x)
    ensures !(StrLess(x, y) && x == y) && !(StrLess(x, y) && StrLess(y, x))
    decreases |x|
  {
    if x != [] && y != [] && x[0] == y[0] {
      assert x == [x[0]] + x[1..] && y == [y[0]] + y[1..];
      StrTrichotomy(x[1..], y[1..]);
    }
  }

  lemma LessTransitive(u: Value, v: Value, w: Value)
    requires Less(u, v) && Less(v, w)
    ensures Less(u, w)
  {
    if u.Str? { StrTransitive(u.s, v.s, w.s); }
  }

  lemma {:induction false} StrTransitive(x: string, y: string, z: string)
    requires StrLess(x, y) && StrLess(y, z)
    ensures StrLess(x, z)
    decreases |x|
  {
    if x != [] && x[0] == y[0] == z[0] { StrTransitive(x[1..], y[1..], z[1..]); }
  }

  /** A first difference at which `x` has the smaller character. */
  predicate DiffersBelow(x: string, y: string, i: nat) {
    i < |x| && i < |y| && (forall j :: 0 <= j < i ==> x[j] == y[j]) && x[i] < y[i]
  }

  /** The order of strings is that of their first difference; a proper beginning comes first. */
  lemma {:induction false} StringOrder(x: string, y: string)
    ensures Less(Str(x), Str(y)) <==> x < y || exists i: nat :: DiffersBelow(x, y, i)
    decreases |x|
  {
    if x != [] && y != [] && x[0] == y[0] {
      StringOrder(x[1..], y[1..]);
      hide DiffersBelow;
      SameFirst(x, y);
    } else if x != [] && y != [] {
      assert x[0] < y[0] ==> DiffersBelow(x, y, 0);
    }
  }

  lemma SameFirst(x: string, y: string)
    requires x != [] && y != [] && x[0] == y[0]
    ensures (exists i: nat :: DiffersBelow(x, y, i)) <==> exists i: nat :: DiffersBelow(x[1..], y[1..], i)
    ensures x < y <==> x[1..] < y[1..]
    ensures StrLess(x, y) == StrLess(x[1..], y[1..])
  {
    assert x == [x[0]] + x[1..] && y == [y[0]] + y[1..];
    if i: nat :| DiffersBelow(x[1..], y[1..], i) {
      forall j: nat | j < i + 1 ensures x[j] == y[j] { assert j > 0 ==> x[1..][j - 1] == y[1..][j - 1]; }
      assert DiffersBelow(x, y, i + 1);
    }
    if i: nat :| DiffersBelow(x, y, i) { assert DiffersBelow(x[1..], y[1..], i - 1); }
  }

  /** The order of numbers is that of the reals: it agrees with addition and multiplication, 0 is below 1, and the
      infinities are at the ends. */
  lemma NumberOrder(x: real, y: real, z: real)
    ensures Less(Num(Fin(x)), Num(Fin(y))) <==> Less(NumOf(Add, x, z), NumOf(Add, y, z))
    ensures Less(Num(Fin(0.0)), Num(Fin(x))) && Less(Num(Fin(0.0)), Num(Fin(y))) ==>
        Less(Num(Fin(0.0)), NumOf(Mul, x, y))
    ensures Less(Num(Fin(0.0)), Num(Fin(1.0)))
    ensures Less(Num(Inf(true)), Num(Fin(x))) && Less(Num(Fin(x)), Num(Inf(false)))
    ensures Less(Num(Inf(true)), Num(Inf(false)))
  {
    if x > 0.0 && y > 0.0 { assert x * y > 0.0; }
  }

  /** The value of an operation on two numbers. */
  function NumOf(op: ArithOp, x: real, y: real): Value { Num(ArithNum(op, Fin(x), Fin(y))) }

  // ----- arithmetic -----

  /** Arithmetic and the minus sign raise an error exactly for operands that are not numbers, and give numbers. */
  lemma ArithDefined(op: ArithOp, v: Value, w: Value)
    ensures ArithValue(op, v, w).Ok? <==> v.Num? && w.Num?
    ensures ArithValue(op, v, w).Ok? ==> ArithValue(op, v, w).value.Num?
    ensures NegValue(v).Ok? <==> v.Num?
    ensures LenValue(v).Ok? <==> v.Str?
  {
  }

  predicate Gives(op: ArithOp, x: Number, y: Number, z: Number) {
    ArithValue(op, Num(x), Num(y)) == Ok(Num(z))
  }

  /** Sums and products of finite numbers are those of a field. */
  lemma FieldLaws(x: real, y: real, z: real)
    ensures Gives(Add, Fin(x), Fin(0.0), Fin(x)) && Gives(Mul, Fin(x), Fin(1.0), Fin(x))
    ensures ArithNum(Add, Fin(x), Fin(y)) == ArithNum(Add, Fin(y), Fin(x))
    ensures ArithNum(Mul, Fin(x), Fin(y)) == ArithNum(Mul, Fin(y), Fin(x))
    ensures ArithNum(Add, ArithNum(Add, Fin(x), Fin(y)), Fin(z)) == ArithNum(Add, Fin(x), ArithNum(Add, Fin(y), Fin(z)))
    ensures ArithNum(Mul, ArithNum(Add, Fin(x), Fin(y)), Fin(z))
         == ArithNum(Add, ArithNum(Mul, Fin(x), Fin(z)), ArithNum(Mul, Fin(y), Fin(z)))
  {
    assert (x + y) * z == x * z + y * z;
  }

  /** Subtraction undoes addition, and addition subtraction. */
  lemma SumUndone(x: Number, y: real)
    ensures Gives(Sub, ArithNum(Add, x, Fin(y)), Fin(y), x)
    ensures Gives(Add, ArithNum(Sub, x, Fin(y)), Fin(y), x)
  {
  }

  /** Division undoes multiplication, and multiplication division. */
  lemma ProductUndone(x: Number, y: real)
    requires y != 0.0
    ensures Gives(Div, ArithNum(Mul, x, Fin(y)), Fin(y), x)
    ensures Gives(Mul, ArithNum(Div, x, Fin(y)), Fin(y), x)
  {
    match x
    case Fin(a) => FinProductUndone(a, y);
    case Inf(negative) => assert Fin(y) != ZERO;
    case NaN =>
  }

  lemma FinProductUndone(a: real, y: real)
    requires y != 0.0
    ensures ArithNum(Div, ArithNum(Mul, Fin(a), Fin(y)), Fin(y)) == Fin(a)
    ensures ArithNum(Mul, ArithNum(Div, Fin(a), Fin(y)), Fin(y)) == Fin(a)
  {
    Cancels(a, y);
    var p, q := a * y, a / y;
    assert ArithNum(Mul, Fin(a), Fin(y)) == Fin(p) && ArithNum(Div, Fin(a), Fin(y)) == Fin(q);
  }

  lemma Cancels(x: real, y: real)
    requires y != 0.0
    ensures x * y / y == x && x / y * y == x
  {
  }

  /** Division by zero and the infinities. */
  lemma ByZero(x: real)
    ensures x > 0.0 ==> Gives(Div, Fin(x), Fin(0.0), Inf(false))
    ensures x < 0.0 ==> Gives(Div, Fin(x), Fin(0.0), Inf(true))
    ensures Gives(Div, Fin(0.0), Fin(0.0), NaN)
    ensures forall negative ::
        Gives(Div, Fin(x), Inf(negative), Fin(0.0)) && Gives(Sub, Inf(negative), Inf(negative), NaN)
    ensures forall negative :: Gives(Add, Inf(negative), Fin(x), Inf(negative))
    ensures forall op: ArithOp, y: Number | op != Pow :: Gives(op, NaN, y, NaN) && Gives(op, y, NaN, NaN)
  {
  }

  /** What is left of `x` after subtracting a whole number of times `y` lies on the side of `y`. */
  predicate IsRemainder(x: real, y: real, r: real, q: int) {
    x == q as real * y + r && (0.0 <= r < y || y < r <= 0.0)
  }

  /** The remainder has the sign of the divisor, and quotient and remainder recombine; no other number does so. */
  lemma Remainder(x: real, y: real)
    requires y != 0.0
    ensures exists r, q :: Gives(Mod, Fin(x), Fin(y), Fin(r)) && IsRemainder(x, y, r, q)
    ensures forall r, q :: IsRemainder(x, y, r, q) ==> Gives(Mod, Fin(x), Fin(y), Fin(r))
  {
    var q := (x / y).Floor;
    var m := q as real * y;
    var r := x - m;
    FloorRemainder(x, y, q, m, r);
    ModIs(x, y, q, m);
    forall r', q' | IsRemainder(x, y, r', q')
      ensures Gives(Mod, Fin(x), Fin(y), Fin(r'))
    {
      OneRemainder(x, y, r, q, r', q');
    }
  }

  lemma ModIs(x: real, y: real, q: int, m: real)
    requires y != 0.0 && q == (x / y).Floor && m == q as real * y
    ensures Gives(Mod, Fin(x), Fin(y), Fin(x - m))
  {
    hide NumMul, NumDiv, NumFloor, NumSub;
    var d := x / y;
    DivIs(x, y, d);
    FloorIs(d, q);
    MulIs(q as real, y, m);
    SubIs(x, m);
    assert NumMod(Fin(x), Fin(y)) == NumSub(Fin(x), Fin(m));
  }

  lemma SubIs(x: real, y: real)
    ensures NumSub(Fin(x), Fin(y)) == Fin(x - y)
  {
  }

  lemma DivIs(x: real, y: real, d: real)
    requires y != 0.0 && d == x / y
    ensures NumDiv(Fin(x), Fin(y)) == Fin(d)
  {
  }

  lemma FloorIs(x: real, q: int)
    requires q == x.Floor
    ensures NumFloor(Fin(x)) == Fin(q as real)
  {
  }

  lemma MulIs(x: real, y: real, m: real)
    requires m == x * y
    ensures NumMul(Fin(x), Fin(y)) == Fin(m)
  {
  }

  lemma FloorRemainder(x: real, y: real, q: int, m: real, r: real)
    requires y != 0.0 && q == (x / y).Floor && m == q as real * y && r == x - m
    ensures IsRemainder(x, y, r, q)
  {
    var d := x / y;
    Cancels(x, y);
    Distributes(d, q as real, y);
    PartOf(d - q as real, y, r);
  }

  lemma Distributes(a: real, b: real, y: real)
    ensures (a - b) * y == a * y - b * y
  {
  }

  /** A part of `y` */
  lemma PartOf(p: real, y: real, r: real)
    requires 0.0 <= p < 1.0 && r == p * y
    ensures y > 0.0 ==> 0.0 <= r < y
    ensures y < 0.0 ==> y < r <= 0.0
  {
    var rest := 1.0 - p;
    assert rest * y == y - r;
  }

  lemma OneRemainder(x: real, y: real, r: real, q: int, r': real, q': int)
    requires IsRemainder(x, y, r, q) && IsRemainder(x, y, r', q')
    ensures r == r' && q == q'
  {
    if q > q' { NotMore(x, y, r, q, r', q'); }
    if q' > q { NotMore(x, y, r', q', r, q); }
  }

  lemma NotMore(x: real, y: real, r: real, q: int, r': real, q': int)
    requires IsRemainder(x, y, r, q) && IsRemainder(x, y, r', q')
    ensures q <= q'
  {
    var d := q as real - q' as real;
    Distributes(q as real, q' as real, y);
    Closer(y, r, r', d);
  }

  /** Two remainders differ by less than the divisor. */
  lemma Closer(y: real, r: real, r': real, d: real)
    requires 0.0 <= r < y || y < r <= 0.0
    requires 0.0 <= r' < y || y < r' <= 0.0
    requires d * y == r' - r
    ensures d < 1.0
  {
    if d >= 1.0 { Apart(d, y); }
  }

  lemma Apart(d: real, y: real)
    requires d >= 1.0
    ensures y > 0.0 ==> d * y >= y
    ensures y < 0.0 ==> d * y <= y
  {
    assert (d - 1.0) * y == d * y - y;
  }

  lemma RemainderSigns()
    ensures Gives(Mod, Fin(-5.0), Fin(-3.0), Fin(-2.0)) && Gives(Mod, Fin(5.0), Fin(-3.0), Fin(-1.0))
    ensures Gives(Mod, Fin(-5.0), Fin(3.0), Fin(1.0)) && Gives(Mod, Fin(5.5), Fin(2.0), Fin(1.5))
  {
    Remainder(-5.0, -3.0);
    Remainder(5.0, -3.0);
    Remainder(-5.0, 3.0);
    Remainder(5.5, 2.0);
    assert IsRemainder(-5.0, -3.0, -2.0, 1) && IsRemainder(5.0, -3.0, -1.0, -2);
    assert IsRemainder(-5.0, 3.0, 1.0, -2) && IsRemainder(5.5, 2.0, 1.5, 2);
  }

  /** Whole exponents add up, and a negative one inverts. */
  lemma Exponents(x: real, m: int, n: int)
    requires x != 0.0 || (m > 0 && n > 0)
    ensures Gives(Pow, Fin(x), Fin(1.0), Fin(x)) && Gives(Pow, Fin(x), Fin(0.0), Fin(1.0))
    ensures ArithNum(Pow, Fin(x), Fin(m as real)).Fin? && ArithNum(Pow, Fin(x), Fin((m + n) as real)).Fin?
    ensures ArithNum(Pow, Fin(x), Fin((m + n) as real))
         == ArithNum(Mul, ArithNum(Pow, Fin(x), Fin(m as real)), ArithNum(Pow, Fin(x), Fin(n as real)))
  {
    PowIs(x, 1);
    PowIs(x, 0);
    PowIs(x, m);
    PowIs(x, n);
    PowIs(x, m + n);
    IntPowerAdds(x, m, n);
    hide IntPower, NumPow;
  }

  function IntPower(x: real, n: int): real {
    if n >= 0 then Power(x, n) else if x == 0.0 then 0.0 else PowerNotZero(x, -n); 1.0 / Power(x, -n)
  }

  lemma {:induction false} PowerOfOne(n: nat)
    ensures Power(1.0, n) == 1.0
  {
    if n > 0 { PowerOfOne(n - 1); }
  }

  lemma PowIs(x: real, n: int)
    requires x != 0.0 || n >= 0
    ensures Gives(Pow, Fin(x), Fin(n as real), Fin(IntPower(x, n)))
  {
    assert (n as real).Floor == n;
    if x == 1.0 { PowerOfOne(if n >= 0 then n else -n); }
  }

  /** One more factor. */
  lemma IntPowerStep(x: real, n: int)
    requires x != 0.0 || n >= 0
    ensures IntPower(x, n + 1) == x * IntPower(x, n)
  {
    if n < 0 {
      PowerNotZero(x, -n);
      PowerNotZero(x, -n - 1);
      Invert(x, Power(x, -n - 1));
    }
  }

  lemma Invert(x: real, p: real)
    requires x != 0.0 && p != 0.0 && x * p != 0.0
    ensures 1.0 / p == x * (1.0 / (x * p))
  {
  }

  lemma {:induction false} IntPowerAdds(x: real, m: int, n: int)
    requires x != 0.0 || (m > 0 && n > 0)
    ensures IntPower(x, m + n) == IntPower(x, m) * IntPower(x, n)
    decreases if m >= 0 then m else -m
  {
    hide IntPower;
    IntPowerNone(x);
    if m > 0 {
      if x != 0.0 || m > 1 { IntPowerAdds(x, m - 1, n); }
      IntPowerStep(x, m - 1);
      IntPowerStep(x, m - 1 + n);
      OneFactor(x, IntPower(x, m - 1 + n), IntPower(x, m - 1), IntPower(x, n));
    } else if m < 0 {
      IntPowerAdds(x, m + 1, n);
      IntPowerStep(x, m);
      IntPowerStep(x, m + n);
      SameFactor(x, IntPower(x, m + n), IntPower(x, m), IntPower(x, n));
    }
  }

  lemma IntPowerNone(x: real)
    ensures IntPower(x, 0) == 1.0
  {
  }

  lemma OneFactor(x: real, a: real, b: real, c: real)
    requires a == b * c
    ensures x * a == x * b * c
  {
  }

  lemma SameFactor(x: real, a: real, b: real, c: real)
    requires x != 0.0 && x * a == x * b * c
    ensures a == b * c
  {
    assert x * (a - b * c) == 0.0;
  }

  /** The infinities follow the signs; what has no value is NaN. */
  lemma Infinities(a: bool, b: bool, x: real)
    ensures Gives(Mul, Inf(a), Inf(b), Inf(a != b)) && Gives(Div, Inf(a), Inf(b), NaN)
    ensures x > 0.0 ==> Gives(Mul, Inf(a), Fin(x), Inf(a)) && Gives(Mul, Fin(x), Inf(a), Inf(a))
    ensures x < 0.0 ==> Gives(Mul, Inf(a), Fin(x), Inf(!a)) && Gives(Mul, Fin(x), Inf(a), Inf(!a))
    ensures Gives(Mul, Inf(a), Fin(0.0), NaN) && Gives(Mul, Fin(0.0), Inf(a), NaN)
    ensures Gives(Add, Inf(a), Inf(a), Inf(a)) && Gives(Add, Inf(a), Inf(!a), NaN) && Gives(Add, Fin(x), Inf(a), Inf(a))
    ensures Gives(Mod, Inf(a), Fin(x), NaN) && Gives(Mod, Fin(x), Fin(0.0), NaN) && Gives(Mod, Fin(x), Inf(a), NaN)
  {
  }

  /** Powers at the edges: of and with zero, one, the infinities and NaN */
  lemma PowerEdges(x: Number, y: Number, r: real)
    ensures Gives(Pow, x, Fin(0.0), Fin(1.0)) && Gives(Pow, Fin(1.0), y, Fin(1.0))
    ensures x != Fin(1.0) && y != Fin(0.0) && (x.NaN? || y.NaN?) ==> Gives(Pow, x, y, NaN)
    ensures r > 0.0 ==> Gives(Pow, Fin(0.0), Fin(r), Fin(0.0)) && Gives(Pow, Inf(false), Fin(r), Inf(false))
    ensures r < 0.0 ==> Gives(Pow, Fin(0.0), Fin(r), Inf(false)) && Gives(Pow, Inf(false), Fin(r), Fin(0.0))
    ensures r > 1.0 || r < -1.0 ==>
        Gives(Pow, Fin(r), Inf(false), Inf(false)) && Gives(Pow, Fin(r), Inf(true), Fin(0.0))
    ensures -1.0 < r < 1.0 ==> Gives(Pow, Fin(r), Inf(false), Fin(0.0)) && Gives(Pow, Fin(r), Inf(true), Inf(false))
  {
    if r > 0.0 && IsInteger(r) { ZeroPower(r.Floor); }
  }

  lemma {:induction false} ZeroPower(n: nat)
    requires n > 0
    ensures Power(0.0, n) == 0.0
  {
  }

  // ----- one operand -----

  /** The minus sign gives the number that adds to zero; twice, it gives the number back, and it turns the order
      round. */
  lemma MinusLaws(x: Number, y: Number)
    ensures NegValue(Num(x)) == ArithValue(Sub, Num(Fin(0.0)), Num(x))
    ensures x.Fin? ==> Gives(Add, x, NumNeg(x), Fin(0.0))
    ensures NegValue(Num(NumNeg(x))) == Ok(Num(x))
    ensures Less(Num(x), Num(y)) <==> Less(Num(NumNeg(y)), Num(NumNeg(x)))
  {
  }

  /** The length of a string is the number of its characters: one for each, and lengths add up. */
  lemma LengthLaws(s: string, t: string, c: char)
    ensures LenValue(Str([])) == Ok(Num(Fin(0.0))) && LenValue(Str([c])) == Ok(Num(Fin(1.0)))
    ensures LenValue(Str(s)).Ok? && LenValue(Str(t)).Ok? && LenValue(Str(s)).value.Num? && LenValue(Str(t)).value.Num?
    ensures LenValue(Str(s + t)) == ArithValue(Add, LenValue(Str(s)).value, LenValue(Str(t)).value)
  {
  }

  /** Only nil and false count as false: zero, NaN and the empty string count as true. */
  lemma FalseLaws(v: Value)
    ensures IsFalse(Nil) && IsFalse(Bool(false)) && !IsFalse(Bool(true))
    ensures v.Num? || v.Str? ==> !IsFalse(v)
  {
  }
}

/** Arithmetic, comparison and unary operators. */
module Operators {
  import opened Numbers
  import opened Values
  import opened Bytecode
  import opened CodeGen
  import opened Emission
  import opened Meaning
  import opened Operands
  import opened Conditions

  function WithValue(cx: Context, base: int, v: Res<Value>): Context {
    if cx.entry.Arrives? then cx.(base := base, entry := Arrives(v, cx.entry.r)) else cx.(base := base)
  }

  const NoDesc: ExpDesc := ExpDesc(VNIL, [], [])

  lemma NoDescInv(fs: FuncState, cx: Context)
    requires ContextInv(fs, [], [], cx)
    ensures EInv(fs, NoDesc, cx)
  {
    assert cx.outer + Owned(NoDesc) == cx.outer + Elems([]) + Elems([]);
  }

  /** An instruction that computes `w` wherever control arrives. */
  predicate Ready(fs: FuncState, i: Instr, cx: Context, w: Res<Value>)
    requires IsReloc(i)
  {
    var o := Run(fs.code, cx.env, cx.start, cx.r0);
    match cx.entry
    case Elsewhere(o') => o == o'
    case Arrives(_, r) =>
      match o
      case Error => w == Fail
      case Stuck => false
      case Exit(p, r') => Agree(r', r, cx.base, -1) && Here(fs, p) && Computes(i, cx.env, r') == w
  }

  lemma EmitComputation(fs: FuncState, i: Instr, cx: Context, w: Res<Value>)
    requires ContextInv(fs, [], [], cx) && IsReloc(i) && Ready(fs, i, cx, w)
    ensures var fs' := Code(fs, i);
            var e' := ExpDesc(VRELOCABLE(|fs.code|), [], []);
            Full(fs', e', WithValue(cx, cx.base, w)) && TrueConstant(fs', e')
  {
    NoDescInv(fs, cx);
    EmitReloc(fs, NoDesc, i, cx);
    if cx.entry.Elsewhere? { OuterExits(fs, NoDesc, cx); }
  }

  // ----- unary operators -----

  function UnRes(op: UnOp, v: Res<Value>): Res<Value> {
    match v
    case Ok(x) => EvalUn(op, x)
    case Fail => Fail
  }

  lemma UnaryReady(fs: FuncState, e: ExpDesc, op: UnOp, cx: Context)
    requires Full(fs, e, cx) && InRegister(e) && !op.OPR_NOT?
    ensures var fs1 := FreeExp(fs, e);
            var i := UnaryInstr(op, e.k.reg);
            ContextInv(fs1, [], [], cx) && (cx.entry.Arrives? ==> Ready(fs1, i, cx, UnRes(op, cx.entry.v)))
            && (cx.entry.Elsewhere? ==> Ready(fs1, i, cx, Fail))
  {
    assert cx.outer + Owned(e) == cx.outer + Elems([]) + Elems([]);
    var o := Run(fs.code, cx.env, cx.start, cx.r0);
    if cx.entry.Arrives? && Arrived(fs, e, o) { ArrivedValue(fs, e, cx); }
  }

  lemma PrefixOk(fs: FuncState, op: UnOp, e: ExpDesc, cx: Context)
    requires Full(fs, e, cx) && TrueConstant(fs, e) && !op.OPR_NOT? && Prefix(fs, op, e).0.k <= cx.env.k
    ensures var (fs', e') := Prefix(fs, op, e);
            var v := if cx.entry.Arrives? then UnRes(op, cx.entry.v) else Fail;
            Full(fs', e', WithValue(cx, cx.base, v)) && TrueConstant(fs', e')
  {
    hide Full, Exp2AnyReg, Code, Ready, ContextInv, Run;
    if op.OPR_MINUS? && IsNumeral(e) {
      FoldMinus(fs, e, cx);
    } else {
      var (fs1, e1) := Exp2AnyReg(fs, e);
      Exp2AnyRegOk(fs, e, cx);
      UnaryReady(fs1, e1, op, cx);
      var v := if cx.entry.Arrives? then UnRes(op, cx.entry.v) else Fail;
      EmitComputation(FreeExp(fs1, e1), UnaryInstr(op, RegOf(e1)), cx, v);
    }
  }

  lemma FoldMinus(fs: FuncState, e: ExpDesc, cx: Context)
    requires Full(fs, e, cx) && IsNumeral(e)
    ensures var v := if cx.entry.Arrives? then UnRes(OPR_MINUS, cx.entry.v) else Fail;
            var e' := e.(k := VKNUM(NumNeg(e.k.nval)));
            Full(fs, e', WithValue(cx, cx.base, v)) && TrueConstant(fs, e')
  {
    hide Run;
    if cx.entry.Arrives? && Arrived(fs, e, Run(fs.code, cx.env, cx.start, cx.r0)) { ArrivedValue(fs, e, cx); }
  }

  // ----- two operands -----

  /** The first operand, while the second is compiled: a constant, a local or the register below. */
  predicate FirstOperand(fs: FuncState, e: ExpDesc, base0: int, base: int) {
    && !HasJumps(e) && 0 <= fs.nactvar <= base0
    && match e.k
       case VKNUM(_) => base == base0
       case VK(i) => i < |fs.k| && i <= MAXINDEXRK && base == base0
       case VNONRELOC(r) => (0 <= r < fs.nactvar && base == base0) || (r == base0 && base == base0 + 1)
       case _ => false
  }

  function FirstValue(e: ExpDesc, env: Env, r: Regs): Value {
    match e.k
    case VKNUM(n) => Num(n)
    case VK(i) => At(env.k, i)
    case VNONRELOC(i) => Get(r, i)
    case _ => Nil
  }

  /** Both operands have their values where control arrives. */
  predicate Both(fs: FuncState, o1: RK, o2: RK, e1: ExpDesc, cx: Context, base0: int) {
    && ContextInv(fs, [], [], cx.(base := base0))
    && var o := Run(fs.code, cx.env, cx.start, cx.r0);
       match cx.entry
       case Elsewhere(o') => o == o'
       case Arrives(v, r) =>
         match o
         case Error => v == Fail
         case Stuck => false
         case Exit(p, r') =>
           && Agree(r', r, base0, -1) && Here(fs, p)
           && v == Ok(Operand(o2, cx.env, r')) && Operand(o1, cx.env, r') == FirstValue(e1, cx.env, r)
  }

  function FirstRK(e: ExpDesc): RK {
    match e.k
    case VK(i) => Const(i)
    case VNONRELOC(r) => Reg(r)
    case _ => Const(0)
  }

  /** A first operand that is already a register or a constant stays as it is. */
  lemma BothInPlace(fs: FuncState, e1: ExpDesc, e2: ExpDesc, o2: RK, cx: Context, base0: int, n: int)
    requires Full(fs, e2, cx) && IsOperand(fs, e2, o2)
    requires FirstOperand(fs, e1, base0, cx.base) && !e1.k.VKNUM? && n == base0
    ensures Both(fs.(freereg := n), FirstRK(e1), o2, e1, cx, base0)
  {
    assert cx.outer + Owned(e2) == cx.outer + Elems([]) + Elems([]);
    var o := Run(fs.code, cx.env, cx.start, cx.r0);
    if cx.entry.Arrives? && Arrived(fs, e2, o) { ArrivedValue(fs, e2, cx); }
    if e2.k.VK? { assert cx.env.k[e2.k.info] == fs.k[e2.k.info]; }
  }

  lemma BothNumber(fs: FuncState, e1: ExpDesc, e2: ExpDesc, o2: RK, cx: Context, base0: int, n: int)
    requires Full(fs, e2, cx) && IsOperand(fs, e2, o2)
    requires FirstOperand(fs, e1, base0, cx.base) && e1.k.VKNUM? && n == base0
    requires AddK(fs, Num(e1.k.nval)).0.k <= cx.env.k
    ensures var (fs', i) := AddK(fs, Num(e1.k.nval));
            Both(fs'.(freereg := n), Const(i), o2, e1, cx, base0)
  {
    var (fs', i) := AddK(fs, Num(e1.k.nval));
    AddKOk(fs, Num(e1.k.nval), cx.env);
    MoreConstants(fs, fs'.k, e2, cx);
    assert cx.outer + Owned(e2) == cx.outer + Elems([]) + Elems([]);
    var o := Run(fs.code, cx.env, cx.start, cx.r0);
    if cx.entry.Arrives? && Arrived(fs', e2, o) { ArrivedValue(fs', e2, cx); }
  }

  /** The context of code that follows this point, with a given value. */
  function Next(fs: FuncState, env: Env, start: nat, r0: Regs, outer: set<nat>, v: Res<Value>): (cx: Context)
    ensures cx == Context(env, start, r0, outer, fs.code, fs.freereg, -1, cx.entry)
  {
    var o := Run(fs.code, env, start, r0);
    Context(env, start, r0, outer, fs.code, fs.freereg, -1,
            if o.Exit? && Here(fs, o.pc) then Arrives(v, o.regs) else Elsewhere(o))
  }

  /** A number with a large index is loaded into a register above the second operand's. */
  lemma LoadNumber(fs: FuncState, i: nat, v: Value, e2: ExpDesc, cx: Context)
    requires Full(fs, e2, cx) && (e2.k.VK? || InRegister(e2)) && !HasJumps(e2)
    requires i < |fs.k| && fs.k[i] == v
    ensures var e1 := ExpDesc(VK(i), [], []);
            var cx1 := Next(fs, cx.env, cx.start, cx.r0, cx.outer, Ok(v));
            Full(fs, e1, cx1)
  {
    var e1 := ExpDesc(VK(i), [], []);
    assert Owned(e1) == {} && cx.outer + Owned(e2) == cx.outer + Owned(e1);
    var o := Run(fs.code, cx.env, cx.start, cx.r0);
    if cx.entry.Arrives? && Arrived(fs, e2, o) { ArrivedValue(fs, e2, cx); }
    assert cx.env.k[i] == fs.k[i];
    ExitsInRange(fs.code, fs.lasttarget, cx.env, cx.start, cx.r0);
  }

  lemma SameJumpsTrans(a: seq<Instr>, b: seq<Instr>, c: seq<Instr>, s: set<nat>)
    requires SameJumps(a, b, s) && SameJumps(b, c, s)
    ensures SameJumps(a, c, s)
  {
    forall p | p in s
      ensures SameJump(a, c, p)
    {
      assert SameJump(a, b, p) && SameJump(b, c, p);
    }
  }

  lemma BothLoaded(fs: FuncState, fs': FuncState, e1: ExpDesc, e2: ExpDesc, o2: RK, cx: Context, base0: int, n: int)
    requires Full(fs, e2, cx) && IsOperand(fs, e2, o2)
    requires FirstOperand(fs, e1, base0, cx.base) && e1.k.VKNUM? && n == base0
    requires var cx1 := Next(fs, cx.env, cx.start, cx.r0, cx.outer, Ok(Num(e1.k.nval)));
             Full(fs', ExpDesc(VNONRELOC(fs.freereg), [], []), cx1)
    requires fs'.nactvar == fs.nactvar
    ensures Both(fs'.(freereg := n), Reg(fs.freereg), o2, e1, cx, base0)
  {
    hide Run;
    var e1' := ExpDesc(VNONRELOC(fs.freereg), [], []);
    var cx1 := Next(fs, cx.env, cx.start, cx.r0, cx.outer, Ok(Num(e1.k.nval)));
    SameJumpsTrans(cx.code0, fs.code, fs'.code, cx.outer);
    assert cx.outer + Owned(e1') == cx.outer + Elems([]) + Elems([]);
    assert e2.k.VK? || e2.k.VNONRELOC?;
    var o := Run(fs.code, cx.env, cx.start, cx.r0);
    if cx.entry.Elsewhere? {
      OuterExits(fs, e2, cx);
    } else if Arrived(fs, e2, o) {
      ArrivedValue(fs, e2, cx);
      if Arrived(fs', e1', Run(fs'.code, cx.env, cx.start, cx.r0)) { ArrivedValue(fs', e1', cx1); }
    }
  }

  function BinRes(op: BinOp, v: Value, w: Res<Value>): Res<Value>
    requires !op.OPR_AND? && !op.OPR_OR?
  {
    match w
    case Ok(x) => EvalBin(op, v, x)
    case Fail => Fail
  }

  /** The value of the whole operation, in the context of its second operand. */
  function Combined(op: BinOp, e1: ExpDesc, cx: Context): Res<Value>
    requires !op.OPR_AND? && !op.OPR_OR?
  {
    if cx.entry.Arrives? then BinRes(op, FirstValue(e1, cx.env, cx.entry.r), cx.entry.v) else Fail
  }

  lemma EmitArith(fs: FuncState, op: ArithOp, o1: RK, o2: RK, e1: ExpDesc, cx: Context, base0: int)
    requires Both(fs, o1, o2, e1, cx, base0)
    ensures var fs' := Code(fs, Arith(op, 0, o1, o2));
            var e' := ExpDesc(VRELOCABLE(|fs.code|), [], []);
            Full(fs', e', WithValue(cx, base0, Combined(OPR_ARITH(op), e1, cx))) && TrueConstant(fs', e')
  {
    hide Run;
    EmitComputation(fs, Arith(op, 0, o1, o2), cx.(base := base0), Combined(OPR_ARITH(op), e1, cx));
  }

  /** Registers free as before the operation. */
  lemma FreedBoth(fs: FuncState, d1: ExpDesc, d2: ExpDesc, base0: int, base: int)
    requires RegsOk(fs, d2, base) && d2.k != VNONRELOC(-1)
    requires fs.nactvar <= base0
    requires match d1.k
             case VNONRELOC(r) => (r < fs.nactvar && base == base0) || (r == base0 && base == base0 + 1)
             case _ => base == base0
    requires !d2.k.VLOCAL?
    ensures FreeExp(FreeExp(fs, d1), d2) == fs.(freereg := base0)
    ensures FreeExp(FreeExp(fs, d2), d1) == fs.(freereg := base0)
  {
  }

  lemma CodeArithOk(fs: FuncState, op: ArithOp, e1: ExpDesc, e2: ExpDesc, cx: Context, base0: int)
    requires Full(fs, e2, cx) && FirstOperand(fs, e1, base0, cx.base)
    requires CodeArith(fs, op, e1, e2).0.k <= cx.env.k
    ensures var (fs', e') := CodeArith(fs, op, e1, e2);
            Full(fs', e', WithValue(cx, base0, Combined(OPR_ARITH(op), e1, cx))) && TrueConstant(fs', e')
  {
    hide Full, Code, Both, Run, Next, Exp2NextReg;
    if Folds(op, e1, e2) {
      FoldArith(fs, op, e1, e2, cx, base0);
    } else {
      var (fs1, d2, o2) := Exp2RK(fs, e2);
      var (fs2, d1, o1) := Exp2RK(fs1, e1);
      PrefixK(fs1, fs2, cx);
      Exp2RKOk(fs, e2, cx);
      FirstToRK(fs1, e1, d2, o2, cx, base0);
      var fs3 := if OperandNumber(o1) > OperandNumber(o2) then FreeExp(FreeExp(fs2, d1), d2)
                 else FreeExp(FreeExp(fs2, d2), d1);
      assert Both(fs3, o1, o2, e1, cx, base0);
      EmitArith(fs3, op, o1, o2, e1, cx, base0);
    }
  }

  lemma PrefixK(fs: FuncState, fs': FuncState, cx: Context)
    requires fs.k <= fs'.k <= cx.env.k
    ensures fs.k <= cx.env.k
  {
  }

  lemma FoldArith(fs: FuncState, op: ArithOp, e1: ExpDesc, e2: ExpDesc, cx: Context, base0: int)
    requires Full(fs, e2, cx) && FirstOperand(fs, e1, base0, cx.base) && Folds(op, e1, e2)
    ensures var e' := e1.(k := VKNUM(ArithNum(op, e1.k.nval, e2.k.nval)));
            Full(fs, e', WithValue(cx, base0, Combined(OPR_ARITH(op), e1, cx))) && TrueConstant(fs, e')
  {
    hide Run;
    var e' := e1.(k := VKNUM(ArithNum(op, e1.k.nval, e2.k.nval)));
    assert Owned(e') == Owned(e2);
    if cx.entry.Arrives? && Arrived(fs, e2, Run(fs.code, cx.env, cx.start, cx.r0)) { ArrivedValue(fs, e2, cx); }
  }

  /** The first operand of an arithmetic operation gets its operand after the second. */
  lemma FirstToRK(fs: FuncState, e1: ExpDesc, d2: ExpDesc, o2: RK, cx: Context, base0: int)
    requires Full(fs, d2, cx) && IsOperand(fs, d2, o2) && FirstOperand(fs, e1, base0, cx.base)
    requires Exp2RK(fs, e1).0.k <= cx.env.k
    ensures var (fs', d1, o1) := Exp2RK(fs, e1);
            && Both(FreeExp(FreeExp(fs', d1), d2), o1, o2, e1, cx, base0)
            && Both(FreeExp(FreeExp(fs', d2), d1), o1, o2, e1, cx, base0)
            && d1.t == [] && d1.f == []
  {
    hide Full, Both, Run, Next, Exp2NextReg;
    var (fs', d1, o1) := Exp2RK(fs, e1);
    FullRegs(fs, d2, cx);
    match e1.k
    case VNONRELOC(_) =>
      BothInPlace(fs, e1, d2, o2, cx, base0, base0);
      FreedBoth(fs', d1, d2, base0, cx.base);
    case VK(_) =>
      BothInPlace(fs, e1, d2, o2, cx, base0, base0);
      FreedBoth(fs', d1, d2, base0, cx.base);
    case VKNUM(n) =>
      var (fs1, i) := AddK(fs, Num(n));
      if i <= MAXINDEXRK {
        BothNumber(fs, e1, d2, o2, cx, base0, base0);
        FreedBoth(fs', d1, d2, base0, cx.base);
      } else {
        FirstLoaded(fs, e1, d2, o2, cx, base0);
      }
  }

  lemma FullRegs(fs: FuncState, e: ExpDesc, cx: Context)
    requires Full(fs, e, cx)
    ensures RegsOk(fs, e, cx.base)
    ensures fs.nactvar <= cx.base && 0 <= fs.nactvar && fs.k <= cx.env.k && fs.nactvar <= fs.freereg
    ensures e.k.VNONRELOC? ==> e.k.reg >= 0
  {
  }

  lemma FirstLoaded(fs: FuncState, e1: ExpDesc, d2: ExpDesc, o2: RK, cx: Context, base0: int)
    requires Full(fs, d2, cx) && IsOperand(fs, d2, o2) && FirstOperand(fs, e1, base0, cx.base) && e1.k.VKNUM?
    requires AddK(fs, Num(e1.k.nval)).1 > MAXINDEXRK
    requires Exp2RK(fs, e1).0.k <= cx.env.k
    ensures var (fs', d1, o1) := Exp2RK(fs, e1);
            && Both(FreeExp(FreeExp(fs', d1), d2), o1, o2, e1, cx, base0)
            && Both(FreeExp(FreeExp(fs', d2), d1), o1, o2, e1, cx, base0)
            && d1.t == [] && d1.f == []
  {
    hide Full, Both, Run, Next, Exp2NextReg;
    var v := Num(e1.k.nval);
    var (fs1, i) := AddK(fs, v);
    var (fs', d1, o1) := Exp2RK(fs, e1);
    var ek := ExpDesc(VK(i), [], []);
    assert e1.(k := VK(i)) == ek;
    assert (fs', d1) == Exp2NextReg(fs1, ek);
    FullMore(fs, fs1, d2, v, cx);
    FullRegs(fs1, d2, cx);
    LoadNumber(fs1, i, v, d2, cx);
    var cx1 := Next(fs1, cx.env, cx.start, cx.r0, cx.outer, Ok(v));
    NextFacts(fs1, cx.env, cx.start, cx.r0, cx.outer, Ok(v));
    Exp2NextRegOk(fs1, ek, cx1);
    assert d1 == ExpDesc(VNONRELOC(fs1.freereg), [], []);
    BothLoaded(fs1, fs', e1, d2, o2, cx, base0, base0);
  }

  lemma NextFacts(fs: FuncState, env: Env, start: nat, r0: Regs, outer: set<nat>, v: Res<Value>)
    ensures var cx := Next(fs, env, start, r0, outer, v);
            cx.env == env && cx.base == fs.freereg
  {
  }

  lemma FullMore(fs: FuncState, fs1: FuncState, e: ExpDesc, v: Value, cx: Context)
    requires Full(fs, e, cx) && fs1 == AddK(fs, v).0 && fs1.k <= cx.env.k
    ensures Full(fs1, e, cx) && AddK(fs, v).1 < |fs1.k| && fs1.k[AddK(fs, v).1] == v
  {
    AddKOk(fs, v, cx.env);
    MoreConstants(fs, fs1.k, e, cx);
  }

  // ----- comparison -----

  function CompInstr(op: CmpOp, cond: bool, o1: RK, o2: RK): Instr {
    if !cond && op != Eq then Cmp(op, true, o2, o1) else Cmp(op, cond, o1, o2)
  }

  function CompOp(op: CmpOp, cond: bool): BinOp {
    match op
    case Eq => if cond then OPR_EQ else OPR_NE
    case Lt => if cond then OPR_LT else OPR_GT
    case Le => if cond then OPR_LE else OPR_GE
  }

  lemma CompTaken(op: CmpOp, cond: bool, o1: RK, o2: RK, env: Env, r: Regs)
    ensures BoolRes(Taken(CompInstr(op, cond, o1, o2), env, r)) ==
            EvalBin(CompOp(op, cond), Operand(o1, env, r), Operand(o2, env, r))
  {
  }

  lemma EmitComp(fs: FuncState, op: CmpOp, cond: bool, o1: RK, o2: RK, e1: ExpDesc, cx: Context, base0: int)
    requires Both(fs, o1, o2, e1, cx, base0)
    ensures var (fs', list) := CondJump(fs, CompInstr(op, cond, o1, o2));
            var e' := ExpDesc(VJMP(|fs.code| + 1), [], []);
            && |list| == 1 && list[0] == |fs.code| + 1
            && Full(fs', e', WithValue(cx, base0, Combined(CompOp(op, cond), e1, cx))) && TrueConstant(fs', e')
  {
    hide Run, CondJump;
    var i := CompInstr(op, cond, o1, o2);
    var (fs', list) := CondJump(fs, i);
    var e' := ExpDesc(VJMP(|fs.code| + 1), [], []);
    CondJumpOk(fs, i, cx.outer);
    DischargeJpcOk(fs, cx.outer);
    DischargeJpcRun(fs, cx.outer, cx.env, cx.start, cx.r0);
    if cx.start > 0 { StartKept(fs, cx.outer, cx.start); }
    assert Core(fs', e') == DischargeJpc(fs).code;
    assert cx.outer + Owned(e') == cx.outer + {|fs.code| + 1};
    SameJumpsTrans(cx.code0, fs.code, fs'.code, cx.outer);
    var o := Run(fs.code, cx.env, cx.start, cx.r0);
    if cx.entry.Elsewhere? {
      NoDescInv(fs, cx.(base := base0));
      OuterExits(fs, NoDesc, cx.(base := base0));
    } else if o.Exit? {
      CompTaken(op, cond, o1, o2, cx.env, o.regs);
    }
  }

  lemma CodeCompOk(fs: FuncState, op: CmpOp, cond: bool, e1: ExpDesc, e2: ExpDesc, cx: Context, base0: int)
    requires Full(fs, e2, cx) && FirstOperand(fs, e1, base0, cx.base) && !e1.k.VKNUM?
    requires CodeComp(fs, op, cond, e1, e2).0.k <= cx.env.k
    ensures var (fs', e') := CodeComp(fs, op, cond, e1, e2);
            Full(fs', e', WithValue(cx, base0, Combined(CompOp(op, cond), e1, cx))) && TrueConstant(fs', e')
  {
    hide Full, CondJump, Both, Run;
    var (fs1, d1, o1) := Exp2RK(fs, e1);
    assert fs1 == fs && d1 == e1 && o1 == FirstRK(e1);
    var (fs2, d2, o2) := Exp2RK(fs1, e2);
    Exp2RKOk(fs, e2, cx);
    FullRegs(fs2, d2, cx);
    FirstStays(fs, fs2, e1, cx, base0);
    BothInPlace(fs2, e1, d2, o2, cx, base0, base0);
    FreedBoth(fs2, d1, d2, base0, cx.base);
    EmitComp(FreeExp(FreeExp(fs2, d2), d1), op, cond, o1, o2, e1, cx, base0);
  }

  lemma FirstStays(fs: FuncState, fs': FuncState, e1: ExpDesc, cx: Context, base0: int)
    requires FirstOperand(fs, e1, base0, cx.base) && Extends(fs, fs')
    ensures FirstOperand(fs', e1, base0, cx.base)
  {
  }
}

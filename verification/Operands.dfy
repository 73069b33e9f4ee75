/** Operands: values in registers or constants, with the register discipline. */
module Operands {
  import opened Values
  import opened Bytecode
  import opened CodeGen
  import opened Meaning
  import opened Closing

  /** An expression holds at most the one register on top of those in use before it. */
  predicate RegsOk(fs: FuncState, e: ExpDesc, base: int) {
    match e.k
    case VNONRELOC(r) =>
      || (0 <= r < fs.nactvar && fs.freereg == base)
      || (r == base && fs.freereg == base + 1)
    case VLOCAL(r) => 0 <= r < fs.nactvar && fs.freereg == base
    case _ => fs.freereg == base
  }

  predicate Full(fs: FuncState, e: ExpDesc, cx: Context) {
    EInv(fs, e, cx) && Means(fs, e, cx) && RegsOk(fs, e, cx.base) && cx.except == -1
  }

  lemma ChangeFree(fs: FuncState, n: int, e: ExpDesc, cx: Context)
    requires EInv(fs, e, cx) && Means(fs, e, cx) && fs.nactvar <= n
    ensures EInv(fs.(freereg := n), e, cx) && Means(fs.(freereg := n), e, cx)
  {
    assert Core(fs.(freereg := n), e) == Core(fs, e);
  }

  /** Assigning a register that the context does not use keeps the whole context. */
  lemma TargetAbove(fs: FuncState, e: ExpDesc, reg: int, cx: Context)
    requires EInv(fs, e, Target(cx, reg)) && Means(fs, e, Target(cx, reg)) && reg >= cx.base && cx.except == -1
    ensures EInv(fs, e, cx) && Means(fs, e, cx)
  {
  }

  predicate InRegister(e: ExpDesc) {
    e.k.VNONRELOC? && e.t == [] && e.f == []
  }

  lemma Exp2NextRegOk(fs: FuncState, e: ExpDesc, cx: Context)
    requires Full(fs, e, cx) && Exp2NextReg(fs, e).0.k <= cx.env.k
    ensures var (fs', e') := Exp2NextReg(fs, e);
            Full(fs', e', cx) && InRegister(e') && e'.k.reg == cx.base && fs'.freereg == cx.base + 1
  {
    hide EInv, Means, CloseJumps, Discharge2Reg;
    var (fs1, e1) := DischargeVars(fs, e);
    DischargeVarsFree(fs, e, cx);
    var fs2 := ReserveRegs(FreeExp(fs1, e1), 1);
    NactvarLow(fs1, e1, cx);
    ChangeFree(fs1, fs2.freereg, e1, cx);
    Exp2RegOk(fs2, e1, cx.base, cx);
    var (fs', e') := Exp2Reg(fs2, e1, cx.base);
    TargetAbove(fs', e', cx.base, cx);
  }

  lemma NactvarLow(fs: FuncState, e: ExpDesc, cx: Context)
    requires EInv(fs, e, cx)
    ensures 0 <= fs.nactvar <= cx.base && fs.k <= cx.env.k
  {
  }

  lemma DischargeVarsFree(fs: FuncState, e: ExpDesc, cx: Context)
    requires Full(fs, e, cx)
    ensures var (fs', e') := DischargeVars(fs, e);
            && Full(fs', e', cx) && fs'.k == fs.k && fs'.nactvar == fs.nactvar && fs'.freereg == fs.freereg
            && e'.t == e.t && e'.f == e.f && !e'.k.VLOCAL? && !e'.k.VUPVAL?
  {
    DischargeVarsOk(fs, e, cx);
  }

  lemma Exp2AnyRegOk(fs: FuncState, e: ExpDesc, cx: Context)
    requires Full(fs, e, cx) && Exp2AnyReg(fs, e).0.k <= cx.env.k
    ensures var (fs', e') := Exp2AnyReg(fs, e);
            Full(fs', e', cx) && InRegister(e')
  {
    hide EInv, Means, CloseJumps, Discharge2Reg, Exp2NextReg;
    var (fs1, e1) := DischargeVars(fs, e);
    DischargeVarsFree(fs, e, cx);
    NactvarLow(fs1, e1, cx);
    if e1.k.VNONRELOC? && !HasJumps(e1) {
    } else if e1.k.VNONRELOC? && e1.k.reg >= fs1.nactvar {
      Exp2RegOk(fs1, e1, cx.base, cx);
      var (fs', e') := Exp2Reg(fs1, e1, cx.base);
      TargetAbove(fs', e', cx.base, cx);
    } else {
      Exp2NextRegOk(fs1, e1, cx);
    }
  }

  lemma Exp2ValOk(fs: FuncState, e: ExpDesc, cx: Context)
    requires Full(fs, e, cx) && Exp2Val(fs, e).0.k <= cx.env.k
    ensures var (fs', e') := Exp2Val(fs, e);
            Full(fs', e', cx) && !HasJumps(e') && !e'.k.VLOCAL? && !e'.k.VUPVAL?
  {
    hide EInv, Means, Exp2AnyReg;
    if HasJumps(e) { Exp2AnyRegOk(fs, e, cx); } else { DischargeVarsFree(fs, e, cx); }
  }

  /** The operand that names the value of the descriptor. */
  predicate IsOperand(fs: FuncState, e: ExpDesc, o: RK) {
    && !HasJumps(e)
    && match e.k
       case VK(i) => o == Const(i) && i <= MAXINDEXRK
       case VNONRELOC(r) => o == Reg(r)
       case _ => false
  }

  lemma UseConstant(fs: FuncState, e: ExpDesc, v: Value, cx: Context)
    requires Full(fs, e, cx) && !HasJumps(e)
    requires match e.k
             case VNIL => v == Nil
             case VTRUE => v == Bool(true)
             case VFALSE => v == Bool(false)
             case VKNUM(n) => v == Num(n)
             case _ => false
    requires AddK(fs, v).0.k <= cx.env.k
    ensures var (fs', i) := AddK(fs, v);
            Full(fs', e.(k := VK(i)), cx) && i < |fs'.k| && At(cx.env.k, i) == v
  {
    var (fs', i) := AddK(fs, v);
    AddKOk(fs, v, cx.env);
    MoreConstants(fs, fs'.k, e, cx);
    var e' := e.(k := VK(i));
    assert Owned(e') == Owned(e);
    if cx.entry.Arrives? && Arrived(fs', e, Run(fs'.code, cx.env, cx.start, cx.r0)) { ArrivedValue(fs', e, cx); }
  }

  lemma RegOperandOk(fs: FuncState, e: ExpDesc, cx: Context)
    requires Full(fs, e, cx) && Exp2AnyReg(fs, e).0.k <= cx.env.k
    ensures var (fs', e', o) := RegOperand(Exp2AnyReg(fs, e));
            Full(fs', e', cx) && IsOperand(fs', e', o)
  {
    hide Full, Exp2AnyReg;
    Exp2AnyRegOk(fs, e, cx);
  }

  lemma SmallConstantOk(fs: FuncState, e: ExpDesc, v: Value, cx: Context)
    requires Full(fs, e, cx) && !HasJumps(e)
    requires match e.k
             case VNIL => v == Nil
             case VTRUE => v == Bool(true)
             case VFALSE => v == Bool(false)
             case _ => false
    requires SmallConstant(fs, e, v).0.k <= cx.env.k
    ensures var (fs', e', o) := SmallConstant(fs, e, v);
            Full(fs', e', cx) && IsOperand(fs', e', o)
  {
    hide Full, Exp2AnyReg;
    if |fs.k| <= MAXINDEXRK { UseConstant(fs, e, v, cx); } else { RegOperandOk(fs, e, cx); }
  }

  /** `luaK_exp2RK` yields an operand with the value of the expression. */
  lemma Exp2RKOk(fs: FuncState, e: ExpDesc, cx: Context)
    requires Full(fs, e, cx) && Exp2RK(fs, e).0.k <= cx.env.k
    ensures var (fs', e', o) := Exp2RK(fs, e);
            Full(fs', e', cx) && IsOperand(fs', e', o)
  {
    hide Full, Exp2Val, Exp2AnyReg, SmallConstant;
    var (fs1, e1) := Exp2Val(fs, e);
    Exp2ValOk(fs, e, cx);
    match e1.k
    case VNIL => SmallConstantOk(fs1, e1, Nil, cx);
    case VTRUE => SmallConstantOk(fs1, e1, Bool(true), cx);
    case VFALSE => SmallConstantOk(fs1, e1, Bool(false), cx);
    case VKNUM(n) =>
      var (fs2, i) := AddK(fs1, Num(n));
      UseConstant(fs1, e1, Num(n), cx);
      if i > MAXINDEXRK { RegOperandOk(fs2, e1.(k := VK(i)), cx); }
    case VK(i) => if i > MAXINDEXRK { RegOperandOk(fs1, e1, cx); }
    case _ => RegOperandOk(fs1, e1, cx);
  }
}

/** The expression code generator. Jump lists are explicit sequences of the positions of pending
    jumps here; `FuncStates` threads them through the instructions and refines these functions. */
module CodeGen {
  import opened Numbers
  import opened Values
  import opened Bytecode

  /** `lasttarget` is the last position marked as a label, `jpc` the jumps pending to here. */
  datatype FuncState = FuncState(
    code: seq<Instr>, jpc: seq<nat>, lasttarget: nat, freereg: int, nactvar: nat, k: seq<Value>)

  datatype Kind =
    | VNIL | VTRUE | VFALSE
    | VK(info: nat)
    | VKNUM(nval: Number)
    | VNONRELOC(reg: int)
    | VLOCAL(loc: int)
    | VUPVAL(up: nat)
    | VJMP(jump: nat)
    | VRELOCABLE(pc: nat)

  /** `t` and `f`: the pending exits when true and when false. */
  datatype ExpDesc = ExpDesc(k: Kind, t: seq<nat>, f: seq<nat>)

  /** Constants are only added, and code generation does not change which locals are active. */
  predicate Extends(fs: FuncState, fs': FuncState) {
    fs.k <= fs'.k && fs'.nactvar == fs.nactvar
  }

  const MAXINDEXRK: nat := 255

  predicate HasJumps(e: ExpDesc) { e.t != [] || e.f != [] }

  predicate IsNumeral(e: ExpDesc) { e.k.VKNUM? && !HasJumps(e) }

  // ----- jumps -----

  /** Position of the instruction that controls the jump at `pc`. */
  function Control(code: seq<Instr>, pc: nat): nat {
    if 1 <= pc <= |code| && IsTest(code[pc - 1]) then pc - 1 else pc
  }

  predicate IsValueJump(code: seq<Instr>, pc: nat) {
    var c := Control(code, pc);
    c < |code| && code[c].TestSet?
  }

  predicate NeedValue(code: seq<Instr>, list: seq<nat>) {
    list != [] && (!IsValueJump(code, list[0]) || NeedValue(code, list[1..]))
  }

  function PatchTestReg(code: seq<Instr>, node: nat, reg: int): (code': seq<Instr>)
    ensures |code'| == |code|
  {
    if !IsValueJump(code, node) then code
    else
      var c := Control(code, node);
      var i := code[c];
      code[c := if reg != NO_REG && reg != i.b then TestSet(reg, i.b, i.c) else Test(i.b, i.c)]
  }

  function FixJump(code: seq<Instr>, pc: nat, dest: int): seq<Instr> {
    if pc < |code| then code[pc := Jmp(dest - (pc + 1))] else code
  }

  function RemoveValues(code: seq<Instr>, list: seq<nat>): (code': seq<Instr>)
    ensures |code'| == |code|
    decreases |list|
  {
    if list == [] then code else RemoveValues(PatchTestReg(code, list[0], NO_REG), list[1..])
  }

  function PatchOne(code: seq<Instr>, node: nat, vtarget: int, reg: int, dtarget: int): seq<Instr> {
    FixJump(PatchTestReg(code, node, reg), node, if IsValueJump(code, node) then vtarget else dtarget)
  }

  function PatchListAux(code: seq<Instr>, list: seq<nat>, vtarget: int, reg: int, dtarget: int): (code': seq<Instr>)
    ensures |code'| == |code|
    decreases |list|
  {
    if list == [] then code
    else PatchListAux(PatchOne(code, list[0], vtarget, reg, dtarget), list[1..], vtarget, reg, dtarget)
  }

  function GetLabel(fs: FuncState): FuncState {
    fs.(lasttarget := |fs.code|)
  }

  function PatchToHere(fs: FuncState, list: seq<nat>): FuncState {
    GetLabel(fs).(jpc := fs.jpc + list)
  }

  function DischargeJpc(fs: FuncState): FuncState {
    fs.(code := PatchListAux(fs.code, fs.jpc, |fs.code|, NO_REG, |fs.code|), jpc := [])
  }

  /** `luaK_code`: the new instruction goes at position `|fs.code|`. */
  function Code(fs: FuncState, i: Instr): (fs': FuncState)
    ensures fs'.k == fs.k && fs'.nactvar == fs.nactvar && fs'.freereg == fs.freereg
  {
    var d := DischargeJpc(fs);
    d.(code := d.code + [i])
  }

  /** `luaK_jump`: jumps pending to here join the list of the new jump, which comes first. */
  function Jump(fs: FuncState): (FuncState, seq<nat>) {
    (Code(fs.(jpc := []), Hole), [|fs.code|] + fs.jpc)
  }

  function CondJump(fs: FuncState, i: Instr): (r: (FuncState, seq<nat>))
    ensures r.0.k == fs.k && r.0.nactvar == fs.nactvar && r.0.freereg == fs.freereg
  {
    Jump(Code(fs, i))
  }

  // ----- registers and constants -----

  function ReserveRegs(fs: FuncState, n: nat): FuncState {
    fs.(freereg := fs.freereg + n)
  }

  function FreeReg(fs: FuncState, reg: int): FuncState {
    if reg >= fs.nactvar then fs.(freereg := fs.freereg - 1) else fs
  }

  function FreeExp(fs: FuncState, e: ExpDesc): FuncState {
    if e.k.VNONRELOC? then FreeReg(fs, e.k.reg) else fs
  }

  function IndexOf(k: seq<Value>, v: Value): (i: nat)
    ensures i <= |k|
    ensures i < |k| ==> k[i] == v
  {
    if k == [] then 0 else if k[0] == v then 0 else 1 + IndexOf(k[1..], v)
  }

  /** `addk`: reuse an equal constant or append one. */
  function AddK(fs: FuncState, v: Value): (r: (FuncState, nat))
    ensures Extends(fs, r.0)
  {
    var i := IndexOf(fs.k, v);
    (if i < |fs.k| then fs else fs.(k := fs.k + [v]), i)
  }

  function CodeNil(fs: FuncState, from: int, n: nat): FuncState
    requires n > 0
  {
    var last := from + n - 1;
    var pc := |fs.code|;
    if pc > fs.lasttarget && fs.code[pc - 1].LoadNil? then
      var p := fs.code[pc - 1];
      var pl := p.a + p.n;
      if p.a <= from <= pl + 1 || from <= p.a <= last + 1 then
        var from' := if p.a < from then p.a else from;
        var last' := if pl > last then pl else last;
        fs.(code := fs.code[pc - 1 := LoadNil(from', last' - from')])
      else Code(fs, LoadNil(from, n - 1))
    else Code(fs, LoadNil(from, n - 1))
  }

  /** The register of a descriptor that has one. */
  function RegOf(e: ExpDesc): int {
    if e.k.VNONRELOC? then e.k.reg else 0
  }

  // ----- discharging -----

  function DischargeVars(fs: FuncState, e: ExpDesc): (FuncState, ExpDesc) {
    match e.k
    case VLOCAL(r) => (fs, e.(k := VNONRELOC(r)))
    case VUPVAL(u) => (Code(fs, GetUpval(0, u)), e.(k := VRELOCABLE(|fs.code|)))
    case _ => (fs, e)
  }

  function SetA(i: Instr, reg: int): Instr {
    match i
    case GetUpval(_, u) => GetUpval(reg, u)
    case Arith(op, _, x, y) => Arith(op, reg, x, y)
    case Unm(_, b) => Unm(reg, b)
    case Not(_, b) => Not(reg, b)
    case Len(_, b) => Len(reg, b)
    case _ => i
  }

  function Discharge2Reg(fs0: FuncState, e0: ExpDesc, reg: int): (r: (FuncState, ExpDesc))
    ensures Extends(fs0, r.0) && r.0.freereg == fs0.freereg
  {
    var (fs, e) := DischargeVars(fs0, e0);
    if e.k.VJMP? then (fs, e)
    else
      var fs' :=
        match e.k
        case VNIL => CodeNil(fs, reg, 1)
        case VFALSE => Code(fs, LoadBool(reg, false, false))
        case VTRUE => Code(fs, LoadBool(reg, true, false))
        case VK(i) => Code(fs, LoadK(reg, i))
        case VKNUM(n) => var (fs1, i) := AddK(fs, Num(n)); Code(fs1, LoadK(reg, i))
        case VRELOCABLE(pc) =>
          if pc < |fs.code| then fs.(code := fs.code[pc := SetA(fs.code[pc], reg)]) else fs
        case VNONRELOC(r) => if r != reg then Code(fs, Move(reg, r)) else fs
        case _ => fs;
      (fs', e.(k := VNONRELOC(reg)))
  }

  function Discharge2AnyReg(fs: FuncState, e: ExpDesc): (r: (FuncState, ExpDesc))
    ensures Extends(fs, r.0)
  {
    if e.k.VNONRELOC? then (fs, e)
    else
      var fs1 := ReserveRegs(fs, 1);
      Discharge2Reg(fs1, e, fs1.freereg - 1)
  }

  function CodeLabel(fs: FuncState, reg: int, v: bool, skip: bool): FuncState {
    Code(GetLabel(fs), LoadBool(reg, v, skip))
  }

  /** The loads of false and true that jumps without a value go to. */
  function LoadValues(fs: FuncState, reg: int, afterJump: bool): FuncState {
    var (fs1, fj) := if afterJump then (fs, []) else Jump(fs);
    PatchToHere(CodeLabel(CodeLabel(fs1, reg, false, true), reg, true, false), fj)
  }

  /** The second half of `exp2reg`: every pending exit gets its value and goes to the end. */
  function CloseJumps(fs: FuncState, t: seq<nat>, f: seq<nat>, reg: int, afterJump: bool): (fs': FuncState)
    ensures fs'.k == fs.k && fs'.nactvar == fs.nactvar && fs'.freereg == fs.freereg
  {
    if t == [] && f == [] then fs
    else
      var need := NeedValue(fs.code, t) || NeedValue(fs.code, f);
      var fs1 := GetLabel(if need then LoadValues(fs, reg, afterJump) else fs);
      var final := |fs1.code|;
      var p_f: int := if need then final - 2 else -1;
      var p_t: int := if need then final - 1 else -1;
      fs1.(code := PatchListAux(PatchListAux(fs1.code, f, final, reg, p_f), t, final, reg, p_t))
  }

  function Exp2Reg(fs: FuncState, e: ExpDesc, reg: int): (r: (FuncState, ExpDesc))
    ensures Extends(fs, r.0) && r.0.freereg == fs.freereg
  {
    var (fs1, e1) := Discharge2Reg(fs, e, reg);
    var t := if e1.k.VJMP? then e1.t + [e1.k.jump] else e1.t;
    (CloseJumps(fs1, t, e1.f, reg, e1.k.VJMP?), ExpDesc(VNONRELOC(reg), [], []))
  }

  function Exp2NextReg(fs: FuncState, e: ExpDesc): (r: (FuncState, ExpDesc))
    ensures Extends(fs, r.0)
  {
    var (fs1, e1) := DischargeVars(fs, e);
    var fs2 := ReserveRegs(FreeExp(fs1, e1), 1);
    Exp2Reg(fs2, e1, fs2.freereg - 1)
  }

  function Exp2AnyReg(fs: FuncState, e: ExpDesc): (r: (FuncState, ExpDesc))
    ensures Extends(fs, r.0)
  {
    var (fs1, e1) := DischargeVars(fs, e);
    if e1.k.VNONRELOC? && !HasJumps(e1) then (fs1, e1)
    else if e1.k.VNONRELOC? && e1.k.reg >= fs1.nactvar then Exp2Reg(fs1, e1, e1.k.reg)
    else Exp2NextReg(fs1, e1)
  }

  function Exp2Val(fs: FuncState, e: ExpDesc): (r: (FuncState, ExpDesc))
    ensures Extends(fs, r.0)
  {
    if HasJumps(e) then Exp2AnyReg(fs, e) else DischargeVars(fs, e)
  }

  function RegOperand(p: (FuncState, ExpDesc)): (FuncState, ExpDesc, RK) {
    (p.0, p.1, Reg(RegOf(p.1)))
  }

  function Exp2RK(fs: FuncState, e: ExpDesc): (r: (FuncState, ExpDesc, RK))
    ensures Extends(fs, r.0)
  {
    var (fs1, e1) := Exp2Val(fs, e);
    match e1.k
    case VNIL => SmallConstant(fs1, e1, Nil)
    case VTRUE => SmallConstant(fs1, e1, Bool(true))
    case VFALSE => SmallConstant(fs1, e1, Bool(false))
    case VKNUM(n) =>
      var (fs2, i) := AddK(fs1, Num(n));
      var e2 := e1.(k := VK(i));
      if i <= MAXINDEXRK then (fs2, e2, Const(i)) else RegOperand(Exp2AnyReg(fs2, e2))
    case VK(i) => if i <= MAXINDEXRK then (fs1, e1, Const(i)) else RegOperand(Exp2AnyReg(fs1, e1))
    case _ => RegOperand(Exp2AnyReg(fs1, e1))
  }

  function SmallConstant(fs: FuncState, e: ExpDesc, v: Value): (r: (FuncState, ExpDesc, RK))
    ensures Extends(fs, r.0)
  {
    if |fs.k| <= MAXINDEXRK then
      var (fs1, i) := AddK(fs, v);
      (fs1, e.(k := VK(i)), Const(i))
    else RegOperand(Exp2AnyReg(fs, e))
  }

  // ----- conditions -----

  function InvertJump(fs: FuncState, pc: nat): FuncState {
    var c := Control(fs.code, pc);
    if c < |fs.code| && fs.code[c].Cmp? then
      fs.(code := fs.code[c := fs.code[c].(cond := !fs.code[c].cond)])
    else fs
  }

  function JumpOnCond(fs: FuncState, e: ExpDesc, cond: bool): (r: (FuncState, seq<nat>))
    ensures Extends(fs, r.0)
  {
    if e.k.VRELOCABLE? && e.k.pc < |fs.code| && fs.code[e.k.pc].Not? then
      CondJump(fs.(code := fs.code[..|fs.code| - 1]), Test(fs.code[e.k.pc].b, !cond))
    else
      var (fs1, e1) := Discharge2AnyReg(fs, e);
      CondJump(FreeExp(fs1, e1), TestSet(NO_REG, RegOf(e1), cond))
  }

  function GoIfTrue(fs: FuncState, e: ExpDesc): (r: (FuncState, ExpDesc))
    ensures Extends(fs, r.0)
  {
    var (fs1, e1) := DischargeVars(fs, e);
    var (fs2, list) :=
      match e1.k
      case VJMP(pc) => (InvertJump(fs1, pc), [pc])
      case VK(_) => (fs1, [])
      case VKNUM(_) => (fs1, [])
      case VTRUE => (fs1, [])
      case _ => JumpOnCond(fs1, e1, false);
    (PatchToHere(fs2, e1.t), e1.(f := e1.f + list, t := []))
  }

  function GoIfFalse(fs: FuncState, e: ExpDesc): (r: (FuncState, ExpDesc))
    ensures Extends(fs, r.0)
  {
    var (fs1, e1) := DischargeVars(fs, e);
    var (fs2, list) :=
      match e1.k
      case VJMP(pc) => (fs1, [pc])
      case VNIL => (fs1, [])
      case VFALSE => (fs1, [])
      case _ => JumpOnCond(fs1, e1, true);
    (PatchToHere(fs2, e1.f), e1.(t := e1.t + list, f := []))
  }

  /** Interchange the true and false lists; their jumps carry no value any more. */
  function SwapLists(fs: FuncState, e: ExpDesc): (r: (FuncState, ExpDesc))
    ensures r.0.k == fs.k && r.0.nactvar == fs.nactvar && r.0.freereg == fs.freereg
  {
    var e' := e.(t := e.f, f := e.t);
    (fs.(code := RemoveValues(RemoveValues(fs.code, e'.f), e'.t)), e')
  }

  function CodeNot(fs: FuncState, e: ExpDesc): (r: (FuncState, ExpDesc))
    ensures Extends(fs, r.0)
  {
    var (fs1, e1) := DischargeVars(fs, e);
    var (fs2, e2) :=
      if e1.k.VNIL? || e1.k.VFALSE? then (fs1, e1.(k := VTRUE))
      else if e1.k.VK? || e1.k.VKNUM? || e1.k.VTRUE? then (fs1, e1.(k := VFALSE))
      else if e1.k.VJMP? then (InvertJump(fs1, e1.k.jump), e1)
      else
        var (fsr, er) := Discharge2AnyReg(fs1, e1);
        var fsn := FreeExp(fsr, er);
        (Code(fsn, Not(0, RegOf(er))), er.(k := VRELOCABLE(|fsn.code|)));
    SwapLists(fs2, e2)
  }

  // ----- operators -----

  datatype UnOp = OPR_MINUS | OPR_NOT | OPR_LEN
  datatype BinOp = OPR_ARITH(op: ArithOp) | OPR_EQ | OPR_LT | OPR_LE | OPR_NE | OPR_GT | OPR_GE | OPR_AND | OPR_OR

  predicate Folds(op: ArithOp, e1: ExpDesc, e2: ExpDesc) {
    IsNumeral(e1) && IsNumeral(e2) && !((op.Div? || op.Mod?) && e2.k.nval == ZERO)
  }

  /** Registers are numbered below constants, so the larger operand was allocated last. */
  function OperandNumber(o: RK): int {
    if o.Reg? then o.r else 256 + o.i
  }

  function CodeArith(fs: FuncState, op: ArithOp, e1: ExpDesc, e2: ExpDesc): (r: (FuncState, ExpDesc))
    ensures Extends(fs, r.0)
  {
    if Folds(op, e1, e2) then (fs, e1.(k := VKNUM(ArithNum(op, e1.k.nval, e2.k.nval))))
    else
      var (fs1, d2, o2) := Exp2RK(fs, e2);
      var (fs2, d1, o1) := Exp2RK(fs1, e1);
      var fs3 := if OperandNumber(o1) > OperandNumber(o2) then FreeExp(FreeExp(fs2, d1), d2)
                 else FreeExp(FreeExp(fs2, d2), d1);
      (Code(fs3, Arith(op, 0, o1, o2)), d1.(k := VRELOCABLE(|fs3.code|)))
  }

  function CodeComp(fs: FuncState, op: CmpOp, cond: bool, e1: ExpDesc, e2: ExpDesc): (r: (FuncState, ExpDesc))
    ensures Extends(fs, r.0)
  {
    var (fs1, d1, o1) := Exp2RK(fs, e1);
    var (fs2, d2, o2) := Exp2RK(fs1, e2);
    var fs3 := FreeExp(FreeExp(fs2, d2), d1);
    var swap := !cond && op != Eq;
    var i := if swap then Cmp(op, true, o2, o1) else Cmp(op, cond, o1, o2);
    var (fs4, list) := CondJump(fs3, i);
    (fs4, d1.(k := VJMP(list[0])))
  }

  function UnaryInstr(op: UnOp, reg: int): Instr {
    if op.OPR_MINUS? then Unm(0, reg) else Len(0, reg)
  }

  function Prefix(fs: FuncState, op: UnOp, e: ExpDesc): (r: (FuncState, ExpDesc))
    ensures Extends(fs, r.0)
  {
    if op.OPR_NOT? then CodeNot(fs, e)
    else if op.OPR_MINUS? && IsNumeral(e) then (fs, e.(k := VKNUM(NumNeg(e.k.nval))))
    else
      var (fs1, e1) := Exp2AnyReg(fs, e);
      var fs2 := FreeExp(fs1, e1);
      (Code(fs2, UnaryInstr(op, RegOf(e1))), e1.(k := VRELOCABLE(|fs2.code|)))
  }

  function Infix(fs: FuncState, op: BinOp, e: ExpDesc): (r: (FuncState, ExpDesc))
    ensures Extends(fs, r.0)
  {
    match op
    case OPR_AND => GoIfTrue(fs, e)
    case OPR_OR => GoIfFalse(fs, e)
    case OPR_ARITH(_) => if IsNumeral(e) then (fs, e) else var (fs1, e1, _) := Exp2RK(fs, e); (fs1, e1)
    case _ => var (fs1, e1, _) := Exp2RK(fs, e); (fs1, e1)
  }

  function Posfix(fs: FuncState, op: BinOp, e1: ExpDesc, e2: ExpDesc): (r: (FuncState, ExpDesc))
    ensures Extends(fs, r.0)
  {
    match op
    case OPR_AND => var (fs1, d2) := DischargeVars(fs, e2); (fs1, d2.(f := d2.f + e1.f))
    case OPR_OR => var (fs1, d2) := DischargeVars(fs, e2); (fs1, d2.(t := d2.t + e1.t))
    case OPR_ARITH(a) => CodeArith(fs, a, e1, e2)
    case OPR_EQ => CodeComp(fs, Eq, true, e1, e2)
    case OPR_LT => CodeComp(fs, Lt, true, e1, e2)
    case OPR_LE => CodeComp(fs, Le, true, e1, e2)
    case OPR_NE => CodeComp(fs, Eq, false, e1, e2)
    case OPR_GT => CodeComp(fs, Lt, false, e1, e2)
    case OPR_GE => CodeComp(fs, Le, false, e1, e2)
  }

  // ----- expressions -----

  datatype Expr =
    | ENil | ETrue | EFalse
    | ENum(n: Number)
    | EStr(s: string)
    | ELocal(reg: nat)
    | EUpval(up: nat)
    | EUn(uop: UnOp, e: Expr)
    | EBin(bop: BinOp, l: Expr, r: Expr)

  /** The calls that `subexpr` makes while it reads the expression. */
  function Compile(fs: FuncState, e: Expr): (r: (FuncState, ExpDesc))
    ensures Extends(fs, r.0)
    decreases e
  {
    match e
    case ENil => (fs, ExpDesc(VNIL, [], []))
    case ETrue => (fs, ExpDesc(VTRUE, [], []))
    case EFalse => (fs, ExpDesc(VFALSE, [], []))
    case ENum(n) => (fs, ExpDesc(VKNUM(n), [], []))
    case EStr(s) => var (fs1, i) := AddK(fs, Str(s)); (fs1, ExpDesc(VK(i), [], []))
    case ELocal(r) => (fs, ExpDesc(VLOCAL(r), [], []))
    case EUpval(u) => (fs, ExpDesc(VUPVAL(u), [], []))
    case EUn(op, x) => var (fs1, d) := Compile(fs, x); Prefix(fs1, op, d)
    case EBin(op, l, r) =>
      var (fs1, d1) := Compile(fs, l);
      var (fs2, d2) := Infix(fs1, op, d1);
      var (fs3, d3) := Compile(fs2, r);
      Posfix(fs3, op, d2, d3)
  }

  /** The direct evaluator: what the expression means. */
  function Eval(e: Expr, r: Regs, up: seq<Value>): Res<Value> {
    match e
    case ENil => Ok(Nil)
    case ETrue => Ok(Bool(true))
    case EFalse => Ok(Bool(false))
    case ENum(n) => Ok(Num(n))
    case EStr(s) => Ok(Str(s))
    case ELocal(i) => Ok(Get(r, i))
    case EUpval(u) => Ok(At(up, u))
    case EUn(op, x) =>
      (match Eval(x, r, up)
       case Fail => Fail
       case Ok(v) => EvalUn(op, v))
    case EBin(op, x, y) =>
      (match Eval(x, r, up)
       case Fail => Fail
       case Ok(v) =>
         if op.OPR_AND? then if IsFalse(v) then Ok(v) else Eval(y, r, up)
         else if op.OPR_OR? then if IsFalse(v) then Eval(y, r, up) else Ok(v)
         else match Eval(y, r, up)
           case Fail => Fail
           case Ok(w) => EvalBin(op, v, w))
  }

  function EvalUn(op: UnOp, v: Value): Res<Value> {
    match op
    case OPR_MINUS => NegValue(v)
    case OPR_NOT => Ok(Bool(IsFalse(v)))
    case OPR_LEN => LenValue(v)
  }

  function BoolRes(b: Res<bool>): Res<Value> {
    match b
    case Ok(x) => Ok(Bool(x))
    case Fail => Fail
  }

  function EvalBin(op: BinOp, v: Value, w: Value): Res<Value>
    requires !op.OPR_AND? && !op.OPR_OR?
  {
    match op
    case OPR_ARITH(a) => ArithValue(a, v, w)
    case OPR_EQ => Ok(Bool(RawEqual(v, w)))
    case OPR_NE => Ok(Bool(!RawEqual(v, w)))
    case OPR_LT => BoolRes(CmpValue(Lt, v, w))
    case OPR_LE => BoolRes(CmpValue(Le, v, w))
    case OPR_GT => BoolRes(CmpValue(Lt, w, v))
    case OPR_GE => BoolRes(CmpValue(Le, w, v))
  }
}

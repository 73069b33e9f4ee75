/** The fragment of the instruction set that expressions compile to, and its execution. */
module Bytecode {
  import opened Values

  /** An RK operand: a register, or a constant (`ISK`). */
  datatype RK = Reg(r: int) | Const(i: nat)

  /** `Hole` stands for a pending `OP_JMP`, one whose destination is not known yet. */
  datatype Instr =
    | Move(a: int, b: int)
    | LoadK(a: int, bx: nat)
    | LoadBool(a: int, v: bool, skip: bool)
    | LoadNil(a: int, n: nat)
    | GetUpval(a: int, u: nat)
    | Arith(op: ArithOp, a: int, x: RK, y: RK)
    | Unm(a: int, b: int)
    | Not(a: int, b: int)
    | Len(a: int, b: int)
    | Jmp(sbx: int)
    | Hole
    | Cmp(cmp: CmpOp, cond: bool, x: RK, y: RK)
    | Test(a: int, c: bool)
    | TestSet(a: int, b: int, c: bool)

  /** No real register has this number. */
  const NO_REG: int := -1

  type Regs = map<int, Value>
  datatype Env = Env(k: seq<Value>, up: seq<Value>)

  function Get(r: Regs, i: int): Value {
    if i in r then r[i] else Nil
  }

  function Put(r: Regs, i: int, v: Value): Regs {
    if i == NO_REG then r else r[i := v]
  }

  function At(s: seq<Value>, i: nat): Value {
    if i < |s| then s[i] else Nil
  }

  function Operand(o: RK, env: Env, r: Regs): Value {
    match o
    case Reg(i) => Get(r, i)
    case Const(i) => At(env.k, i)
  }

  /** `testTMode`: the next instruction is a jump that this one controls. */
  predicate IsTest(i: Instr) {
    i.Cmp? || i.Test? || i.TestSet?
  }

  /** Instructions that always continue with the next one. */
  predicate IsStraight(i: Instr) {
    !IsTest(i) && !i.Jmp? && !i.Hole? && !(i.LoadBool? && i.skip)
  }

  /** The value a straight instruction computes; LOADNIL computes nil for a whole range. */
  function Computes(i: Instr, env: Env, r: Regs): Res<Value>
    requires IsStraight(i)
  {
    match i
    case Move(_, b) => Ok(Get(r, b))
    case LoadK(_, bx) => Ok(At(env.k, bx))
    case LoadBool(_, b, _) => Ok(Bool(b))
    case LoadNil(_, _) => Ok(Nil)
    case GetUpval(_, u) => Ok(At(env.up, u))
    case Arith(op, _, x, y) => ArithValue(op, Operand(x, env, r), Operand(y, env, r))
    case Unm(_, b) => NegValue(Get(r, b))
    case Not(_, b) => Ok(Bool(IsFalse(Get(r, b))))
    case Len(_, b) => LenValue(Get(r, b))
  }

  function NilRange(r: Regs, a: int, n: nat): (r': Regs)
    ensures forall i :: Get(r', i) == if a <= i <= a + n then Nil else Get(r, i)
    decreases n
  {
    if n == 0 then r[a := Nil] else NilRange(r[a := Nil], a + 1, n - 1)
  }

  function Execute(i: Instr, env: Env, r: Regs): Res<Regs>
    requires IsStraight(i)
  {
    if i.LoadNil? then Ok(NilRange(r, i.a, i.n))
    else match Computes(i, env, r)
      case Ok(v) => Ok(Put(r, i.a, v))
      case Fail => Fail
  }

  /** Does a test execute the jump that follows it? */
  function Taken(i: Instr, env: Env, r: Regs): Res<bool>
    requires IsTest(i)
  {
    match i
    case Cmp(op, cond, x, y) =>
      (match CmpValue(op, Operand(x, env, r), Operand(y, env, r))
       case Ok(b) => Ok(b == cond)
       case Fail => Fail)
    case Test(a, c) => Ok(IsFalse(Get(r, a)) != c)
    case TestSet(_, b, c) => Ok(IsFalse(Get(r, b)) != c)
  }

  function AfterTest(i: Instr, r: Regs): Regs
    requires IsTest(i)
  {
    if i.TestSet? then Put(r, i.a, Get(r, i.b)) else r
  }

  // ----- the machine -----

  datatype Config = Running(pc: nat, regs: Regs) | Raised | Wrong

  /** One dispatch of `luaV_execute`. A test that succeeds also executes the next jump. */
  function Step(code: seq<Instr>, env: Env, c: Config): Config {
    if !c.Running? || c.pc >= |code| then c
    else
      var i := code[c.pc];
      if IsTest(i) then
        match Taken(i, env, c.regs)
        case Fail => Raised
        case Ok(false) => Running(c.pc + 2, c.regs)
        case Ok(true) =>
          if c.pc + 1 < |code| && code[c.pc + 1].Jmp? && c.pc + 2 + code[c.pc + 1].sbx >= 0
          then Running(c.pc + 2 + code[c.pc + 1].sbx, AfterTest(i, c.regs))
          else Wrong
      else if i.Jmp? then
        if c.pc + 1 + i.sbx >= 0 then Running(c.pc + 1 + i.sbx, c.regs) else Wrong
      else if i.Hole? then Wrong
      else if i.LoadBool? && i.skip then Running(c.pc + 2, Put(c.regs, i.a, Bool(i.v)))
      else match Execute(i, env, c.regs)
        case Ok(r') => Running(c.pc + 1, r')
        case Fail => Raised
  }

  function Steps(code: seq<Instr>, env: Env, n: nat, c: Config): Config {
    if n == 0 then c else Steps(code, env, n - 1, Step(code, env, c))
  }

  lemma {:induction false} StepsCompose(code: seq<Instr>, env: Env, m: nat, n: nat, c: Config)
    ensures Steps(code, env, m + n, c) == Steps(code, env, n, Steps(code, env, m, c))
  {
    if m > 0 {
      StepsCompose(code, env, m - 1, n, Step(code, env, c));
    }
  }

  // ----- partial code -----

  /** Where forward execution of partial code ends: at a hole, past the end, in an error,
      or nowhere sensible. */
  datatype Outcome = Exit(pc: nat, regs: Regs) | Error | Stuck

  /** The position holds the jump of a test, so only that test may lead to it. */
  predicate Shadowed(code: seq<Instr>, pc: nat) {
    0 < pc <= |code| && IsTest(code[pc - 1])
  }

  /** Execution of code whose executed jumps all go forward, up to the first hole or the end. */
  function Run(code: seq<Instr>, env: Env, pc: nat, r: Regs): Outcome
    decreases |code| - pc
  {
    if pc >= |code| || code[pc].Hole? then Exit(pc, r)
    else
      var i := code[pc];
      if IsTest(i) then
        match Taken(i, env, r)
        case Fail => Error
        case Ok(false) => Land(code, env, pc, pc + 2, r)
        case Ok(true) => Run(code, env, pc + 1, AfterTest(i, r))
      else if i.Jmp? then
        if i.sbx < 0 then Stuck else Land(code, env, pc, pc + 1 + i.sbx, r)
      else if i.LoadBool? && i.skip then Land(code, env, pc, pc + 2, Put(r, i.a, Bool(i.v)))
      else match Execute(i, env, r)
        case Ok(r') => Run(code, env, pc + 1, r')
        case Fail => Error
  }

  function Land(code: seq<Instr>, env: Env, from: nat, pc: nat, r: Regs): Outcome
    requires from < |code| && from < pc
    decreases |code| - from, 0
  {
    if Shadowed(code, pc) then Stuck else Run(code, env, pc, r)
  }

  /** Every hole is filled and every test keeps its jump. */
  predicate Complete(code: seq<Instr>) {
    && (forall i :: 0 <= i < |code| ==> !code[i].Hole?)
    && (forall i :: 0 <= i < |code| && IsTest(code[i]) ==> i + 1 < |code| && code[i + 1].Jmp?)
  }

  lemma StepFollowsRun(code: seq<Instr>, env: Env, pc: nat, r: Regs)
    requires Complete(code) && pc < |code|
    requires Run(code, env, pc, r) != Stuck
    ensures var c' := Step(code, env, Running(pc, r));
            && (c' == Raised ==> Run(code, env, pc, r) == Error)
            && (c'.Running? ==> c'.pc > pc && Run(code, env, c'.pc, c'.regs) == Run(code, env, pc, r))
            && c' != Wrong
  {
    var i := code[pc];
    if IsTest(i) && Taken(i, env, r) == Ok(true) {
      var r' := AfterTest(i, r);
      assert Run(code, env, pc, r) == Run(code, env, pc + 1, r');
      assert Run(code, env, pc + 1, r') == Land(code, env, pc + 1, pc + 2 + code[pc + 1].sbx, r');
    } else if IsTest(i) && Taken(i, env, r) == Ok(false) {
      assert Run(code, env, pc, r) == Land(code, env, pc, pc + 2, r);
    } else if i.Jmp? {
      assert Run(code, env, pc, r) == Land(code, env, pc, pc + 1 + i.sbx, r);
    }
  }

  /** Forward execution of complete code is what the machine does. */
  lemma {:induction false} RunIsExecution(code: seq<Instr>, env: Env, pc: nat, r: Regs)
    requires Complete(code)
    ensures match Run(code, env, pc, r)
            case Exit(q, r') => q >= |code| && exists n :: Steps(code, env, n, Running(pc, r)) == Running(q, r')
            case Error => exists n :: Steps(code, env, n, Running(pc, r)) == Raised
            case Stuck => true
    decreases |code| - pc
  {
    var c := Running(pc, r);
    var o := Run(code, env, pc, r);
    if pc >= |code| {
      assert Steps(code, env, 0, c) == c;
    } else if o != Stuck {
      StepFollowsRun(code, env, pc, r);
      var c' := Step(code, env, c);
      assert Steps(code, env, 0, c') == c';
      assert Steps(code, env, 1, c) == c';
      if c' != Raised {
        RunIsExecution(code, env, c'.pc, c'.regs);
        var goal := if o.Error? then Raised else Running(o.pc, o.regs);
        var n :| Steps(code, env, n, c') == goal;
        StepsCompose(code, env, 1, n, c);
      }
    }
  }
}

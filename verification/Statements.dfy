/** Sequences of local declarations and assignments, compiled one after the other. */
module Statements {
  import opened Values
  import opened Bytecode
  import opened CodeGen
  import opened Emission
  import opened Meaning
  import opened Closing
  import opened Operands
  import opened Correctness

  datatype Stmt =
    | Local(e: Expr)
    | Assign(reg: nat, e: Expr)

  /** `localstat` activates the new variable after its value is in the next register. */
  function CompileStmt(fs: FuncState, s: Stmt): FuncState {
    match s
    case Local(e) => CompileLocal(fs, e).(nactvar := fs.nactvar + 1)
    case Assign(reg, e) => CompileStore(fs, e, reg)
  }

  function CompileBlock(fs: FuncState, b: seq<Stmt>): FuncState
    decreases |b|
  {
    if b == [] then fs else CompileBlock(CompileStmt(fs, b[0]), b[1..])
  }

  /** The variables a block mentions are active there, beginning with `n` of them. */
  predicate Scoped(b: seq<Stmt>, n: nat)
    decreases |b|
  {
    b == [] ||
    match b[0]
    case Local(e) => LocalsActive(e, n) && Scoped(b[1..], n + 1)
    case Assign(reg, e) => reg < n && LocalsActive(e, n) && Scoped(b[1..], n)
  }

  /** What a block means, on the values of the active variables in the order of declaration. */
  function Exec(b: seq<Stmt>, vars: seq<Value>, up: seq<Value>): Res<seq<Value>>
    requires Scoped(b, |vars|)
    decreases |b|
  {
    if b == [] then Ok(vars)
    else
      match Eval(b[0].e, Registers(vars), up)
      case Fail => Fail
      case Ok(v) => Exec(b[1..], Assigned(b[0], vars, v), up)
  }

  function Assigned(s: Stmt, vars: seq<Value>, v: Value): seq<Value>
    requires s.Assign? ==> s.reg < |vars|
  {
    if s.Local? then vars + [v] else vars[s.reg := v]
  }

  function Registers(vars: seq<Value>): Regs {
    map i: int | 0 <= i < |vars| :: vars[i]
  }

  predicate Holding(r: Regs, vars: seq<Value>) {
    forall i :: 0 <= i < |vars| ==> Get(r, i) == vars[i]
  }

  /** Constants are only added. */
  lemma {:induction false} BlockConstants(fs: FuncState, b: seq<Stmt>)
    ensures fs.k <= CompileBlock(fs, b).k
    decreases |b|
  {
    if b != [] { BlockConstants(CompileStmt(fs, b[0]), b[1..]); }
  }

  /** Between two statements the only registers in use are those of the active variables. */
  predicate AtStatement(fs: FuncState, start: nat) {
    Between(fs, {}, start) && fs.freereg == fs.nactvar
  }

  /** How a run of the code so far ends, given the meaning of what was compiled. */
  predicate Outcomes(o: Outcome, v: Res<seq<Value>>) {
    match v
    case Fail => o == Error
    case Ok(vars) => o.Exit? && Holding(o.regs, vars)
  }

  lemma Deliver(fs: FuncState, d: ExpDesc, cx: Context)
    requires EInv(fs, d, cx) && Means(fs, d, cx) && d == ExpDesc(d.k, [], []) && d.k.VNONRELOC? && cx.outer == {}
    ensures Between(fs, {}, cx.start) && Core(fs, d) == fs.code
    ensures cx.entry.Elsewhere? ==> Run(fs.code, cx.env, cx.start, cx.r0) == cx.entry.o
    ensures cx.entry.Arrives? ==>
              match cx.entry.v
              case Fail => Run(fs.code, cx.env, cx.start, cx.r0) == Error
              case Ok(v) => var o := Run(fs.code, cx.env, cx.start, cx.r0);
                            o.Exit? && Get(o.regs, d.k.reg) == v && Agree(o.regs, cx.entry.r, cx.base, cx.except)
  {
    assert cx.outer + Owned(d) == {};
  }

  lemma LocalStmtOk(fs: FuncState, e: Expr, env: Env, start: nat, r0: Regs)
    requires AtStatement(fs, start) && Run(fs.code, env, start, r0) != Stuck && LocalsActive(e, fs.nactvar)
    requires CompileLocal(fs, e).k <= env.k
    ensures var fs' := CompileStmt(fs, Local(e));
            var o := Run(fs.code, env, start, r0);
            var o' := Run(fs'.code, env, start, r0);
            && AtStatement(fs', start) && fs'.nactvar == fs.nactvar + 1
            && (o == Error ==> o' == Error)
            && (o.Exit? ==>
                match Eval(e, o.regs, env.up)
                case Fail => o' == Error
                case Ok(v) => o'.Exit? && Get(o'.regs, fs.nactvar) == v && Agree(o'.regs, o.regs, fs.nactvar, -1))
  {
    hide Run, Exp2NextReg, Means;
    var cx := Entered(fs, e, env, start, r0, {});
    if Run(fs.code, env, start, r0).Exit? { ArrivesHere(fs, e, env, start, r0); }
    var (fs1, d) := Compile(fs, e);
    var (fs', d') := Exp2NextReg(fs1, d);
    CompileOk(fs, e, env, start, r0, {});
    Exp2NextRegOk(fs1, d, cx);
    Deliver(fs', d', cx);
  }

  lemma AssignStmtOk(fs: FuncState, reg: nat, e: Expr, env: Env, start: nat, r0: Regs)
    requires AtStatement(fs, start) && Run(fs.code, env, start, r0) != Stuck && LocalsActive(e, fs.nactvar)
    requires reg < fs.nactvar
    requires CompileStore(fs, e, reg).k <= env.k
    ensures var fs' := CompileStmt(fs, Assign(reg, e));
            var o := Run(fs.code, env, start, r0);
            var o' := Run(fs'.code, env, start, r0);
            && AtStatement(fs', start) && fs'.nactvar == fs.nactvar
            && (o == Error ==> o' == Error)
            && (o.Exit? ==>
                match Eval(e, o.regs, env.up)
                case Fail => o' == Error
                case Ok(v) => o'.Exit? && Get(o'.regs, reg) == v && Agree(o'.regs, o.regs, fs.nactvar, reg))
  {
    hide Run, Exp2Reg, Means;
    var cx := Entered(fs, e, env, start, r0, {});
    if Run(fs.code, env, start, r0).Exit? { ArrivesHere(fs, e, env, start, r0); }
    var (fs1, d) := Compile(fs, e);
    var fs2 := FreeExp(fs1, d);
    var (fs', d') := Exp2Reg(fs2, d, reg);
    CompileOk(fs, e, env, start, r0, {});
    ChangeFree(fs1, fs2.freereg, d, cx);
    Exp2RegOk(fs2, d, reg, cx);
    Deliver(fs', d', Target(cx, reg));
  }

  lemma StmtOk(fs: FuncState, s: Stmt, vars: seq<Value>, env: Env, start: nat, r0: Regs)
    requires AtStatement(fs, start) && |vars| == fs.nactvar && Scoped([s], fs.nactvar)
    requires CompileStmt(fs, s).k <= env.k
    requires var o := Run(fs.code, env, start, r0); o == Error || (o.Exit? && Holding(o.regs, vars))
    ensures var fs' := CompileStmt(fs, s);
            var o := Run(fs.code, env, start, r0);
            var o' := Run(fs'.code, env, start, r0);
            && AtStatement(fs', start) && fs'.nactvar == |vars| + (if s.Local? then 1 else 0)
            && (o == Error ==> o' == Error)
            && (o.Exit? ==>
                match Eval(s.e, Registers(vars), env.up)
                case Fail => o' == Error
                case Ok(v) => o'.Exit? && Holding(o'.regs, Assigned(s, vars, v)))
  {
    hide Run, CompileLocal, CompileStore, Eval, LocalsActive;
    var o := Run(fs.code, env, start, r0);
    if o.Exit? {
      EvalAgree(s.e, Registers(vars), o.regs, env.up, |vars|);
    }
    match s
    case Local(e) => LocalStmtOk(fs, e, env, start, r0);
    case Assign(reg, e) => AssignStmtOk(fs, reg, e, env, start, r0);
  }

  /** A compiled block does what the block means: a run that arrives with the values of the variables
      in their registers leaves with their new values, or raises an error exactly if the block does. */
  lemma {:induction false} BlockCorrect(fs: FuncState, b: seq<Stmt>, vars: seq<Value>, env: Env, start: nat, r0: Regs)
    requires AtStatement(fs, start) && |vars| == fs.nactvar && Scoped(b, fs.nactvar)
    requires CompileBlock(fs, b).k <= env.k
    requires var o := Run(fs.code, env, start, r0); o.Exit? && Holding(o.regs, vars)
    ensures AtStatement(CompileBlock(fs, b), start)
    ensures Outcomes(Run(CompileBlock(fs, b).code, env, start, r0), Exec(b, vars, env.up))
    decreases |b|
  {
    hide Run, CompileStmt, Eval, LocalsActive;
    if b != [] {
      var fs1 := CompileStmt(fs, b[0]);
      BlockConstants(fs1, b[1..]);
      assert Scoped([b[0]], fs.nactvar);
      StmtOk(fs, b[0], vars, env, start, r0);
      match Eval(b[0].e, Registers(vars), env.up)
      case Ok(v) => BlockCorrect(fs1, b[1..], Assigned(b[0], vars, v), env, start, r0);
      case Fail => BlockRaises(fs1, b[1..], env, start, r0);
    }
  }

  lemma {:induction false} BlockRaises(fs: FuncState, b: seq<Stmt>, env: Env, start: nat, r0: Regs)
    requires AtStatement(fs, start) && Scoped(b, fs.nactvar)
    requires CompileBlock(fs, b).k <= env.k
    requires Run(fs.code, env, start, r0) == Error
    ensures AtStatement(CompileBlock(fs, b), start)
    ensures Run(CompileBlock(fs, b).code, env, start, r0) == Error
    decreases |b|
  {
    hide Run, CompileStmt, Eval, LocalsActive;
    if b != [] {
      var fs1 := CompileStmt(fs, b[0]);
      BlockConstants(fs1, b[1..]);
      assert Scoped([b[0]], fs.nactvar);
      var vars := seq(fs.nactvar, i => Nil);
      StmtOk(fs, b[0], vars, env, start, r0);
      BlockRaises(fs1, b[1..], env, start, r0);
    }
  }

  lemma StmtRuns(fs: FuncState, s: Stmt, env: Env, start: nat, r0: Regs)
    requires AtStatement(fs, start) && Scoped([s], fs.nactvar) && CompileStmt(fs, s).k <= env.k
    requires Run(fs.code, env, start, r0) != Stuck
    ensures AtStatement(CompileStmt(fs, s), start) && Run(CompileStmt(fs, s).code, env, start, r0) != Stuck
    ensures CompileStmt(fs, s).nactvar == fs.nactvar + (if s.Local? then 1 else 0)
  {
    hide Run, CompileLocal, CompileStore, Eval, LocalsActive;
    match s
    case Local(e) => LocalStmtOk(fs, e, env, start, r0);
    case Assign(reg, e) => AssignStmtOk(fs, reg, e, env, start, r0);
  }

  // ----- whole functions -----

  /** `open_func` and the parameters. */
  function Opened(params: nat): FuncState {
    FuncState([], [], 0, params, params, [])
  }

  function CompileFunction(params: nat, b: seq<Stmt>): FuncState {
    CompileBlock(Opened(params), b)
  }

  /** The machine does what the result says. */
  ghost predicate Behaves(code: seq<Instr>, env: Env, args: seq<Value>, v: Res<seq<Value>>) {
    Complete(code) &&
    match v
    case Fail => exists n :: Steps(code, env, n, Running(0, Registers(args))) == Raised
    case Ok(vars) => exists n, r ::
        Steps(code, env, n, Running(0, Registers(args))) == Running(|code|, r) && Holding(r, vars)
  }

  /** A function body of declarations and assignments, compiled from nothing: the machine started with
      the arguments in the first registers ends past the last instruction with every variable in its
      register, or raises an error exactly when the block fails. */
  lemma FunctionCorrect(args: seq<Value>, b: seq<Stmt>, up: seq<Value>)
    requires Scoped(b, |args|)
    ensures var fs := CompileFunction(|args|, b);
            Behaves(Settle(fs), Env(fs.k, up), args, Exec(b, args, up))
  {
    hide CompileBlock, Exec, Scoped;
    var fs0 := Opened(|args|);
    var fs := CompileFunction(|args|, b);
    var env := Env(fs.k, up);
    assert AtStatement(fs0, 0);
    assert Run(fs0.code, env, 0, Registers(args)) == Exit(0, Registers(args));
    BlockCorrect(fs0, b, args, env, 0, Registers(args));
    SettledRun(fs, env, 0, Registers(args));
  }

  lemma SettledRun(fs: FuncState, env: Env, start: nat, r0: Regs)
    requires Between(fs, {}, start) && Run(fs.code, env, start, r0) != Stuck
    ensures Complete(Settle(fs))
    ensures var o := Run(fs.code, env, start, r0);
            match o
            case Error => exists n :: Steps(Settle(fs), env, n, Running(start, r0)) == Raised
            case Exit(_, r) => exists n :: Steps(Settle(fs), env, n, Running(start, r0)) == Running(|Settle(fs)|, r)
            case Stuck => true
  {
    var code := Settle(fs);
    DischargeJpcOk(fs, {});
    DischargeJpcRun(fs, {}, env, start, r0);
    forall i: nat | i < |code|
      ensures !code[i].Hole?
    {
      assert i !in Holes(code);
    }
    forall i: nat | i < |code| && IsTest(code[i])
      ensures i + 1 < |code| && code[i + 1].Jmp?
    {
      assert ShapeAt(code, DischargeJpc(fs).lasttarget, i);
    }
    ExitsInRange(fs.code, fs.lasttarget, env, start, r0);
    var o := Run(fs.code, env, start, r0);
    if o.Exit? && o.pc < |fs.code| { assert o.pc in Holes(fs.code); }
    RunIsExecution(code, env, start, r0);
  }
}

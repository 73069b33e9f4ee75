/** What the parser makes of a program with nested functions: names have become registers and upvalues. */
module ScopedCode {
  import opened Scoping
  import opened ScopedPrograms

  datatype Proto = Proto(ups: seq<UpvalDesc>, code: seq<Instr>)

  datatype Operand =
    | KNum(n: int)
    | Register(reg: nat)
    | Upvalue(up: nat)
    | NoVariable
    | NewClosure(p: Proto)

  /** A block knows whether it has to close upvalues, and from which register on, when it is left. */
  datatype Instr =
    | Declared(o: Operand)
    | SetRegister(reg: nat, o: Operand)
    | SetUpvalue(up: nat, o: Operand)
    | SetNothing(o: Operand)
    | DoBlock(code: seq<Instr>, close: bool, level: nat)
    | Loop(cond: Operand, code: seq<Instr>, close: bool, level: nat)
    | CallFunction(f: Operand, arg: Operand)
    | Emit(o: Operand)

  /** A later point: the enclosing functions are the same, with perhaps more upvalues and marks. */
  ghost predicate Same(c: Chain, c': Chain) {
    && Grows(c, c')
    && forall d :: 0 <= d < |c| ==> SameBlocks(c[d].blocks, c'[d].blocks)
  }

  predicate SameBlocks(b: seq<Scoping.Block>, b': seq<Scoping.Block>) {
    |b'| == |b| && forall i :: 0 <= i < |b| ==> b'[i].nactvar == b[i].nactvar
  }

  lemma {:induction false} ResolveSame(c: Chain, n: string, base: bool)
    ensures Same(c, Resolve(c, n, base).0)
    decreases |c|
  {
    if c != [] && VarIn(c[0].vars, n) == -1 && UpvalIn(c[0].ups, n, 0) == -1 {
      ResolveSame(c[1..], n, false);
      var (outer, r) := Resolve(c[1..], n, false);
      var c' := Resolve(c, n, base).0;
      assert Same(c[1..], outer);
      forall d | 0 <= d < |c|
        ensures c'[d].vars == c[d].vars && c[d].ups <= c'[d].ups && c[d].captured <= c'[d].captured
        ensures SameBlocks(c[d].blocks, c'[d].blocks)
      {
        if d > 0 && r != VVOID { assert c'[d] == outer[d - 1] && c[d] == c[1..][d - 1]; }
      }
    }
  }

  /** The variables that are active, from the outermost function to the innermost. */
  function Flat(c: Chain): seq<Var>
    decreases |c|
  {
    if c == [] then [Var(ENVNAME, ENVID)] else Flat(c[1..]) + c[0].vars
  }

  predicate Shape(c: Chain, c': Chain) {
    |c'| == |c| && forall d :: 0 <= d < |c| ==> |c'[d].blocks| == |c[d].blocks|
  }

  /** The identity of a variable is its place among the active ones. */
  function NewVar(c: Chain, n: string): Var {
    Var(n, |Flat(c)|)
  }

  function Translate(c: Chain, e: Expr): (r: (Chain, Operand))
    requires c != [] && c[0].blocks != []
    ensures Shape(c, r.0)
    decreases e
  {
    match e
    case Const(n) => (c, KNum(n))
    case Name(n) =>
      ResolveSame(c, n, true);
      var (c', r) := Resolve(c, n, true);
      (match r
       case VVOID => (c', NoVariable)
       case VLOCAL(v) => (c', Register(v))
       case VUPVAL(u) => (c', Upvalue(u)))
    case Function(p, body) =>
      var c1 := Opened(c, p);
      var (c2, code) := TranslateAll(c1, body);
      assert forall d :: 0 <= d < |c| ==> c2[1..][d] == c2[d + 1] && c1[d + 1] == c[d];
      (c2[1..], NewClosure(Proto(c2[0].ups, code)))
  }

  /** `open_func` with its parameter */
  function Opened(c: Chain, p: string): (c1: Chain)
    requires c != []
    ensures |c1| == |c| + 1 && c1[1..] == c && |c1[0].blocks| == 1
  {
    Act(c, OpenFunc([NewVar(c, p)]))
  }

  function Entered(c: Chain): (c1: Chain)
    requires c != [] && c[0].blocks != []
    ensures |c1| == |c| && |c1[0].blocks| == |c[0].blocks| + 1 && c1[1..] == c[1..]
  {
    Act(c, EnterBlock)
  }

  /** A block: what it holds, and how it is left. */
  function TranslateBlock(c: Chain, body: seq<Stmt>): (r: (Chain, seq<Instr>, bool, nat))
    requires c != [] && c[0].blocks != []
    ensures Shape(c, r.0)
    decreases body, 1
  {
    var c1 := Entered(c);
    var (c2, code) := TranslateAll(c1, body);
    assert |c2[0].blocks| == |c1[0].blocks|;
    assert forall d :: 0 < d < |c| ==> c1[d] == c1[1..][d - 1] == c[d];
    (Act(c2, LeaveBlock), code, Closes(c2[0]), c2[0].blocks[0].nactvar)
  }

  function TranslateStep(c: Chain, stmt: Stmt): (r: (Chain, Instr))
    requires c != [] && c[0].blocks != []
    ensures Shape(c, r.0)
    decreases stmt
  {
    match stmt
    case Local(n, e) =>
      var (c1, o) := Translate(c, e);
      (Act(c1, Declare(NewVar(c1, n))), Declared(o))
    case Assign(n, e) =>
      ResolveSame(c, n, true);
      var (c1, r) := Resolve(c, n, true);
      var (c2, o) := Translate(c1, e);
      (match r
       case VVOID => (c2, SetNothing(o))
       case VLOCAL(v) => (c2, SetRegister(v, o))
       case VUPVAL(u) => (c2, SetUpvalue(u, o)))
    case Do(body) =>
      var (c1, code, close, level) := TranslateBlock(c, body);
      (c1, DoBlock(code, close, level))
    case While(cond, body) =>
      var (c1, o) := Translate(c, cond);
      var (c2, code, close, level) := TranslateBlock(c1, body);
      (c2, Loop(o, code, close, level))
    case Call(f, arg) =>
      var (c1, o) := Translate(c, f);
      var (c2, o2) := Translate(c1, arg);
      (c2, CallFunction(o, o2))
    case Output(e) =>
      var (c1, o) := Translate(c, e);
      (c1, Emit(o))
  }

  function TranslateAll(c: Chain, body: seq<Stmt>): (r: (Chain, seq<Instr>))
    requires c != [] && c[0].blocks != []
    ensures Shape(c, r.0)
    decreases body, 0
  {
    if body == [] then (c, [])
    else
      var (c1, i) := TranslateStep(c, body[0]);
      var (c2, code) := TranslateAll(c1, body[1..]);
      (c2, [i] + code)
  }

  /** Whether there is a function in the code, so that its activation has to close upvalues at the end. */
  predicate HasFunctions(code: seq<Instr>)
    decreases code
  {
    code != [] && (InstrHasFunctions(code[0]) || HasFunctions(code[1..]))
  }

  predicate InstrHasFunctions(i: Instr)
    decreases i
  {
    match i
    case Declared(o) => o.NewClosure?
    case SetRegister(_, o) => o.NewClosure?
    case SetUpvalue(_, o) => o.NewClosure?
    case SetNothing(o) => o.NewClosure?
    case DoBlock(code, _, _) => HasFunctions(code)
    case Loop(o, code, _, _) => o.NewClosure? || HasFunctions(code)
    case CallFunction(f, arg) => f.NewClosure? || arg.NewClosure?
    case Emit(o) => o.NewClosure?
  }
}

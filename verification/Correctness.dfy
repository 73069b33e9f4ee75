/** Compiled expressions mean what the evaluator says. */
module Correctness {
  import opened Values
  import opened Bytecode
  import opened CodeGen
  import opened PartialCode
  import opened Emission
  import opened Meaning
  import opened Closing
  import opened Operands
  import opened Conditions
  import opened Negation
  import opened Operators

  /** The locals an expression mentions are active. */
  predicate LocalsActive(e: Expr, n: nat) {
    match e
    case ELocal(r) => r < n
    case EUn(_, x) => LocalsActive(x, n)
    case EBin(_, x, y) => LocalsActive(x, n) && LocalsActive(y, n)
    case _ => true
  }

  lemma {:induction false} EvalAgree(e: Expr, r: Regs, r': Regs, up: seq<Value>, n: nat)
    requires LocalsActive(e, n) && Agree(r, r', n, -1)
    ensures Eval(e, r, up) == Eval(e, r', up)
  {
    match e
    case ELocal(i) => assert Get(r, i) == Get(r', i);
    case EUn(_, x) => EvalAgree(x, r, r', up, n);
    case EBin(_, x, y) => EvalAgree(x, r, r', up, n); EvalAgree(y, r, r', up, n);
    case _ =>
  }

  /** The state of the generator between two expressions. */
  predicate Between(fs: FuncState, outer: set<nat>, start: nat) {
    Inv(fs, outer) && StartOk(fs.code, fs.lasttarget, start)
  }

  /** The context of an expression compiled in this state. */
  function Entered(fs: FuncState, e: Expr, env: Env, start: nat, r0: Regs, outer: set<nat>): (cx: Context)
    ensures cx == Context(env, start, r0, outer, fs.code, fs.freereg, -1, cx.entry)
  {
    var o := Run(fs.code, env, start, r0);
    Next(fs, env, start, r0, outer, if o.Exit? then Eval(e, o.regs, env.up) else Fail)
  }

  lemma LeafOk(fs: FuncState, k: Kind, e: Expr, env: Env, start: nat, r0: Regs, outer: set<nat>)
    requires Between(fs, outer, start) && fs.k <= env.k && Run(fs.code, env, start, r0) != Stuck
    requires !k.VNONRELOC? && !k.VJMP? && !k.VRELOCABLE?
    requires KindInv(fs, ExpDesc(k, [], [])) && (k.VLOCAL? ==> k.loc < fs.nactvar)
    requires forall r: Regs :: KindValue(fs, ExpDesc(k, [], []), env, r) == Eval(e, r, env.up)
    ensures Full(fs, ExpDesc(k, [], []), Entered(fs, e, env, start, r0, outer))
  {
    var d := ExpDesc(k, [], []);
    assert Owned(d) == {} && outer + Owned(d) == outer;
    ExitsInRange(fs.code, fs.lasttarget, env, start, r0);
    var o := Run(fs.code, env, start, r0);
    if o.Exit? && !Here(fs, o.pc) {
      assert o.pc in Holes(fs.code);
    }
  }

  // ----- two operands -----

  lemma FirstAfterInfix(fs: FuncState, op: BinOp, e: ExpDesc, cx: Context)
    requires Full(fs, e, cx) && !op.OPR_AND? && !op.OPR_OR?
    requires Infix(fs, op, e).0.k <= cx.env.k
    ensures var (fs', e') := Infix(fs, op, e);
            && Full(fs', e', cx) && FirstOperand(fs', e', cx.base, fs'.freereg)
            && (e'.k.VKNUM? ==> op.OPR_ARITH?)
  {
    hide Full, Exp2RK;
    FullRegs(fs, e, cx);
    if !(op.OPR_ARITH? && IsNumeral(e)) {
      Exp2RKOk(fs, e, cx);
      var (fs', e', o) := Exp2RK(fs, e);
      FullRegs(fs', e', cx);
      FullKind(fs', e', cx);
    }
  }

  lemma FullKind(fs: FuncState, e: ExpDesc, cx: Context)
    requires Full(fs, e, cx)
    ensures KindInv(fs, e)
  {
  }

  lemma AfterFirst(fs: FuncState, e: ExpDesc, cx: Context)
    requires Full(fs, e, cx) && IsPlain(e.k) && !HasJumps(e)
    ensures Between(fs, cx.outer, cx.start) && Run(fs.code, cx.env, cx.start, cx.r0) != Stuck
  {
    assert Owned(e) == {} && cx.outer + Owned(e) == cx.outer;
  }

  /** A context that starts later in the same run, with the same value. */
  predicate Continues(late: Context, cx: Context) {
    && late == cx.(code0 := late.code0, entry := late.entry)
    && match late.entry
       case Elsewhere(o) =>
         cx.entry == late.entry || (o == Error && cx.entry.Arrives? && cx.entry.v == Fail)
       case Arrives(v, r) => cx.entry.Arrives? && cx.entry.v == v && Agree(r, cx.entry.r, cx.base, -1)
  }

  lemma Rebase(fs: FuncState, e: ExpDesc, late: Context, cx: Context)
    requires Full(fs, e, late) && Continues(late, cx) && SameJumps(cx.code0, late.code0, cx.outer)
    ensures Full(fs, e, cx)
  {
    hide Run;
    SameJumpsTrans(cx.code0, late.code0, fs.code, cx.outer);
    var o := Run(Core(fs, e), cx.env, cx.start, cx.r0);
  }

  lemma OperandEntry(fs: FuncState, fs2: FuncState, d2: ExpDesc, op: BinOp, l: Expr, r: Expr, cx: Context)
    requires !op.OPR_AND? && !op.OPR_OR?
    requires cx == Entered(fs, EBin(op, l, r), cx.env, cx.start, cx.r0, cx.outer)
    requires fs.nactvar <= fs.freereg
    requires LocalsActive(r, fs.nactvar)
    requires Full(fs2, d2, Entered(fs, l, cx.env, cx.start, cx.r0, cx.outer))
    requires FirstOperand(fs2, d2, fs.freereg, fs2.freereg)
    ensures var cxr := Entered(fs2, r, cx.env, cx.start, cx.r0, cx.outer);
            Continues(WithValue(cxr, fs.freereg, Combined(op, d2, cxr)), cx)
    ensures SameJumps(fs.code, fs2.code, cx.outer)
  {
    hide Run;
    var cxl := Entered(fs, l, cx.env, cx.start, cx.r0, cx.outer);
    var o0 := Run(fs.code, cx.env, cx.start, cx.r0);
    var o2 := Run(fs2.code, cx.env, cx.start, cx.r0);
    if cxl.entry.Elsewhere? {
      OuterExits(fs2, d2, cxl);
    } else if o2.Exit? {
      ArrivedValue(fs2, d2, cxl);
      EvalAgree(r, o2.regs, o0.regs, cx.env.up, fs.nactvar);
    }
  }

  // ----- and, or -----

  function TestOp(truth: bool): BinOp { if truth then OPR_AND else OPR_OR }

  function TestList(e: ExpDesc, truth: bool): seq<nat> { if truth then e.f else e.t }

  lemma AfterTest(fs: FuncState, t: seq<nat>, f: seq<nat>, cx: Context, truth: bool)
    requires Forked(fs, t, f, cx, truth)
    ensures Between(fs, cx.outer + Elems(t) + Elems(f), cx.start) && Run(fs.code, cx.env, cx.start, cx.r0) != Stuck
    ensures fs.freereg == cx.base
  {
  }

  /** The exits of the first operand join those of the second. */
  function Joined(d: ExpDesc, list: seq<nat>, truth: bool): ExpDesc {
    if truth then d.(f := d.f + list) else d.(t := d.t + list)
  }

  lemma JoinedInv(fs: FuncState, d: ExpDesc, list: seq<nat>, truth: bool, cx: Context, cxr: Context)
    requires EInv(fs, d, cxr) && NoDup(list) && cxr.outer == cx.outer + Elems(list) && cx.outer !! Elems(list)
    requires cx.env == cxr.env && cx.start == cxr.start && cx.base == cxr.base
    requires SameJumps(cx.code0, fs.code, cx.outer)
    requires cx.entry.Elsewhere? ==> cx.entry.o.Error? || (cx.entry.o.Exit? && cx.entry.o.pc in cx.outer)
    ensures EInv(fs, Joined(d, list, truth), cx)
  {
    var d' := Joined(d, list, truth);
    var side := if truth then d.f else d.t;
    assert forall p :: p in side + list <==> p in side || p in list;
    assert forall i :: 0 <= i < |side| ==> side[i] in Elems(side);
    assert forall i :: 0 <= i < |list| ==> list[i] in Elems(list);
    assert Elems(side) !! Elems(list);
    assert NoDup(side + list);
    assert Owned(d') == Owned(d) + Elems(list);
    assert cx.outer + Owned(d') == cxr.outer + Owned(d);
    if d.k.VJMP? { assert d.k.jump in Owned(d); }
  }

  /** Where the second operand of a logical operator is not evaluated, the first is the value. */
  predicate FirstDecides(fs: FuncState, list: seq<nat>, truth: bool, late: Context, cx: Context) {
    && late.entry.Elsewhere? && cx.entry.Arrives?
    && var o := late.entry.o;
       && o.Exit? && o.pc in list && cx.entry.v.Ok? && Agree(o.regs, cx.entry.r, cx.base, -1)
       && Carries(fs.code, o.pc, cx.entry.v.value, o.regs, !truth)
  }

  lemma JoinedMeans(fs2: FuncState, fs: FuncState, d: ExpDesc, list: seq<nat>, truth: bool, late: Context, cx: Context)
    requires Full(fs, d, late) && EInv(fs, Joined(d, list, truth), cx)
    requires late.outer == cx.outer + Elems(list) && late.code0 == fs2.code
    requires forall p :: p in list ==> p < |fs2.code| && fs2.code[p].Hole?
    requires FirstDecides(fs2, list, truth, late, cx) || Continues(late.(outer := cx.outer), cx)
    requires late.env == cx.env && late.start == cx.start && late.r0 == cx.r0 && late.base == cx.base && cx.except == -1
    ensures Full(fs, Joined(d, list, truth), cx)
  {
    hide Run;
    var d' := Joined(d, list, truth);
    assert Core(fs, d') == Core(fs, d);
    var side := if truth then d.f else d.t;
    assert forall p :: p in side + list <==> p in side || p in list;
    var o := Run(Core(fs, d), cx.env, cx.start, cx.r0);
    if FirstDecides(fs2, list, truth, late, cx) {
      assert o == late.entry.o && o.pc in Elems(list);
      CarriesSame(fs2.code, fs.code, o.pc, cx.entry.v.value, o.regs, !truth);
    }
  }

  lemma TestEntry(fs: FuncState, fs2: FuncState, list: seq<nat>, truth: bool, l: Expr, r: Expr, cx: Context)
    requires cx == Entered(fs, EBin(TestOp(truth), l, r), cx.env, cx.start, cx.r0, cx.outer)
    requires fs.nactvar <= fs.freereg && LocalsActive(r, fs.nactvar)
    requires var cxl := Entered(fs, l, cx.env, cx.start, cx.r0, cx.outer);
             Forked(fs2, if truth then [] else list, if truth then list else [], cxl, truth)
    ensures var late := Entered(fs2, r, cx.env, cx.start, cx.r0, cx.outer + Elems(list));
            && late.base == cx.base
            && (FirstDecides(fs2, list, truth, late, cx) || Continues(late.(outer := cx.outer), cx))
    ensures SameJumps(fs.code, fs2.code, cx.outer) && NoDup(list) && cx.outer !! Elems(list)
    ensures forall p :: p in list ==> p < |fs2.code| && fs2.code[p].Hole?
    ensures cx.entry.Elsewhere? ==> cx.entry.o.Error? || (cx.entry.o.Exit? && cx.entry.o.pc in cx.outer)
  {
    hide Run;
    var cxl := Entered(fs, l, cx.env, cx.start, cx.r0, cx.outer);
    HolesBelow(fs2, if truth then [] else list, if truth then list else [], cxl);
    var o0 := Run(fs.code, cx.env, cx.start, cx.r0);
    var o2 := Run(fs2.code, cx.env, cx.start, cx.r0);
    if cxl.entry.Arrives? && o2.Exit? && Here(fs2, o2.pc) {
      EvalAgree(r, o2.regs, o0.regs, cx.env.up, fs.nactvar);
    }
  }

  lemma ChainTests(fs: FuncState, fs2: FuncState, list: seq<nat>, fs4: FuncState, d: ExpDesc,
                   truth: bool, l: Expr, r: Expr, cx: Context)
    requires cx == Entered(fs, EBin(TestOp(truth), l, r), cx.env, cx.start, cx.r0, cx.outer)
    requires fs.nactvar <= fs.freereg && LocalsActive(r, fs.nactvar)
    requires var cxl := Entered(fs, l, cx.env, cx.start, cx.r0, cx.outer);
             Forked(fs2, if truth then [] else list, if truth then list else [], cxl, truth)
    requires Full(fs4, d, Entered(fs2, r, cx.env, cx.start, cx.r0, cx.outer + Elems(list)))
    ensures Full(fs4, Joined(d, list, truth), cx)
  {
    hide Run, Forked, Means, FirstDecides, Continues;
    var late := Entered(fs2, r, cx.env, cx.start, cx.r0, cx.outer + Elems(list));
    TestEntry(fs, fs2, list, truth, l, r, cx);
    SameJumpsTrans(fs.code, fs2.code, fs4.code, cx.outer);
    JoinedInv(fs4, d, list, truth, cx, late);
    JoinedMeans(fs2, fs4, d, list, truth, late, cx);
  }

  // ----- the cases -----

  lemma BetweenFacts(fs: FuncState, outer: set<nat>, start: nat)
    requires Between(fs, outer, start)
    ensures fs.nactvar <= fs.freereg
  {
  }

  predicate IsLeaf(e: Expr) { !e.EUn? && !e.EBin? }

  lemma LeafCase(fs: FuncState, e: Expr, env: Env, start: nat, r0: Regs, outer: set<nat>)
    requires Between(fs, outer, start) && Run(fs.code, env, start, r0) != Stuck && IsLeaf(e)
    requires LocalsActive(e, fs.nactvar) && Compile(fs, e).0.k <= env.k
    ensures var (fs', d) := Compile(fs, e);
            Full(fs', d, Entered(fs, e, env, start, r0, outer)) && TrueConstant(fs', d)
  {
    hide Full, Run, AddK;
    var (fs', d) := Compile(fs, e);
    if e.EStr? {
      AddKOk(fs, Str(e.s), env);
      assert fs'.k[d.k.info] == At(env.k, d.k.info);
      SameEntry(fs, fs', e, env, start, r0, outer);
    }
    LeafOk(fs', d.k, e, env, start, r0, outer);
  }

  lemma SameEntry(fs: FuncState, fs': FuncState, e: Expr, env: Env, start: nat, r0: Regs, outer: set<nat>)
    requires fs' == fs.(k := fs'.k)
    ensures Entered(fs', e, env, start, r0, outer) == Entered(fs, e, env, start, r0, outer)
  {
  }

  lemma UnaryCase(fs: FuncState, op: UnOp, x: Expr, fs1: FuncState, d: ExpDesc, cx: Context)
    requires cx == Entered(fs, EUn(op, x), cx.env, cx.start, cx.r0, cx.outer)
    requires Full(fs1, d, Entered(fs, x, cx.env, cx.start, cx.r0, cx.outer)) && TrueConstant(fs1, d)
    requires Prefix(fs1, op, d).0.k <= cx.env.k
    ensures var (fs', d') := Prefix(fs1, op, d);
            Full(fs', d', cx) && TrueConstant(fs', d')
  {
    hide Full, Run, CodeNot, Exp2AnyReg;
    var cxx := Entered(fs, x, cx.env, cx.start, cx.r0, cx.outer);
    if op.OPR_NOT? {
      CodeNotOk(fs1, d, cxx);
      assert Negated(cxx) == cx;
    } else {
      PrefixOk(fs1, op, d, cxx);
      assert WithValue(cxx, cxx.base, if cxx.entry.Arrives? then UnRes(op, cxx.entry.v) else Fail) == cx;
    }
  }

  lemma OperandCase(fs: FuncState, op: BinOp, l: Expr, r: Expr, fs1: FuncState, d1: ExpDesc, cx: Context)
    requires !op.OPR_AND? && !op.OPR_OR?
    requires cx == Entered(fs, EBin(op, l, r), cx.env, cx.start, cx.r0, cx.outer)
    requires Full(fs1, d1, Entered(fs, l, cx.env, cx.start, cx.r0, cx.outer))
    requires Infix(fs1, op, d1).0.k <= cx.env.k
    ensures var (fs2, d2) := Infix(fs1, op, d1);
            && Full(fs2, d2, Entered(fs, l, cx.env, cx.start, cx.r0, cx.outer))
            && FirstOperand(fs2, d2, fs.freereg, fs2.freereg) && (d2.k.VKNUM? ==> op.OPR_ARITH?)
            && Between(fs2, cx.outer, cx.start) && Run(fs2.code, cx.env, cx.start, cx.r0) != Stuck
  {
    hide Full, Run, Infix, Inv;
    var cxl := Entered(fs, l, cx.env, cx.start, cx.r0, cx.outer);
    FirstAfterInfix(fs1, op, d1, cxl);
    var (fs2, d2) := Infix(fs1, op, d1);
    AfterFirst(fs2, d2, cxl);
  }

  lemma OperandCaseEnd(fs: FuncState, op: BinOp, l: Expr, r: Expr, fs1: FuncState, d1: ExpDesc,
                       fs3: FuncState, d3: ExpDesc, cx: Context)
    requires !op.OPR_AND? && !op.OPR_OR?
    requires cx == Entered(fs, EBin(op, l, r), cx.env, cx.start, cx.r0, cx.outer)
    requires fs.nactvar <= fs.freereg && 0 <= fs.nactvar && fs1.nactvar == fs.nactvar && LocalsActive(r, fs.nactvar)
    requires var (fs2, d2) := Infix(fs1, op, d1);
             && Full(fs2, d2, Entered(fs, l, cx.env, cx.start, cx.r0, cx.outer))
             && FirstOperand(fs2, d2, fs.freereg, fs2.freereg) && (d2.k.VKNUM? ==> op.OPR_ARITH?)
             && Full(fs3, d3, Entered(fs2, r, cx.env, cx.start, cx.r0, cx.outer))
             && Extends(fs2, fs3) && Posfix(fs3, op, d2, d3).0.k <= cx.env.k
    ensures var (fs', d') := Posfix(fs3, op, Infix(fs1, op, d1).1, d3);
            Full(fs', d', cx) && TrueConstant(fs', d')
  {
    hide Full, Run, Infix, CodeArith, CodeComp, LocalsActive;
    var (fs2, d2) := Infix(fs1, op, d1);
    var cxr := Entered(fs2, r, cx.env, cx.start, cx.r0, cx.outer);
    FirstStays(fs2, fs3, d2, cxr, fs.freereg);
    var (fs', d') := Posfix(fs3, op, d2, d3);
    match op {
      case OPR_ARITH(a) => CodeArithOk(fs3, a, d2, d3, cxr, fs.freereg);
      case OPR_EQ => CodeCompOk(fs3, Eq, true, d2, d3, cxr, fs.freereg);
      case OPR_LT => CodeCompOk(fs3, Lt, true, d2, d3, cxr, fs.freereg);
      case OPR_LE => CodeCompOk(fs3, Le, true, d2, d3, cxr, fs.freereg);
      case OPR_NE => CodeCompOk(fs3, Eq, false, d2, d3, cxr, fs.freereg);
      case OPR_GT => CodeCompOk(fs3, Lt, false, d2, d3, cxr, fs.freereg);
      case OPR_GE => CodeCompOk(fs3, Le, false, d2, d3, cxr, fs.freereg);
    }
    OperandEntry(fs, fs2, d2, op, l, r, cx);
    Rebase(fs', d', WithValue(cxr, fs.freereg, Combined(op, d2, cxr)), cx);
  }

  lemma TestCase(fs: FuncState, truth: bool, l: Expr, r: Expr, fs1: FuncState, d1: ExpDesc, cx: Context)
    requires cx == Entered(fs, EBin(TestOp(truth), l, r), cx.env, cx.start, cx.r0, cx.outer)
    requires Full(fs1, d1, Entered(fs, l, cx.env, cx.start, cx.r0, cx.outer)) && TrueConstant(fs1, d1)
    requires Infix(fs1, TestOp(truth), d1).0.k <= cx.env.k
    ensures var (fs2, d2) := Infix(fs1, TestOp(truth), d1);
            var list := TestList(d2, truth);
            && Forked(fs2, if truth then [] else list, if truth then list else [],
                      Entered(fs, l, cx.env, cx.start, cx.r0, cx.outer), truth)
            && Between(fs2, cx.outer + Elems(list), cx.start)
            && Run(fs2.code, cx.env, cx.start, cx.r0) != Stuck
  {
    hide Full, Run, GoIfTrue, GoIfFalse, Forked, Inv;
    var cxl := Entered(fs, l, cx.env, cx.start, cx.r0, cx.outer);
    var (fs2, d2) := Infix(fs1, TestOp(truth), d1);
    if truth { GoIfTrueOk(fs1, d1, cxl); } else { GoIfFalseOk(fs1, d1, cxl); }
    var list := TestList(d2, truth);
    AfterTest(fs2, if truth then [] else list, if truth then list else [], cxl, truth);
    assert Elems([]) == {};
    assert cx.outer + Elems(if truth then [] else list) + Elems(if truth then list else []) == cx.outer + Elems(list);
  }

  lemma TestCaseEnd(fs: FuncState, truth: bool, l: Expr, r: Expr, fs1: FuncState, d1: ExpDesc,
                    fs3: FuncState, d3: ExpDesc, cx: Context)
    requires cx == Entered(fs, EBin(TestOp(truth), l, r), cx.env, cx.start, cx.r0, cx.outer)
    requires fs.nactvar <= fs.freereg && 0 <= fs.nactvar && LocalsActive(r, fs.nactvar)
    requires var (fs2, d2) := Infix(fs1, TestOp(truth), d1);
             var list := TestList(d2, truth);
             && fs2.nactvar == fs.nactvar
             && Forked(fs2, if truth then [] else list, if truth then list else [],
                       Entered(fs, l, cx.env, cx.start, cx.r0, cx.outer), truth)
             && Full(fs3, d3, Entered(fs2, r, cx.env, cx.start, cx.r0, cx.outer + Elems(list)))
             && TrueConstant(fs3, d3)
    ensures var (fs', d') := Posfix(fs3, TestOp(truth), Infix(fs1, TestOp(truth), d1).1, d3);
            Full(fs', d', cx) && TrueConstant(fs', d')
  {
    hide Full, Run, GoIfTrue, GoIfFalse, Forked, Code;
    var (fs2, d2) := Infix(fs1, TestOp(truth), d1);
    var list := TestList(d2, truth);
    var cxr := Entered(fs2, r, cx.env, cx.start, cx.r0, cx.outer + Elems(list));
    DischargeVarsFree(fs3, d3, cxr);
    var (fs4, d4) := DischargeVars(fs3, d3);
    ChainTests(fs, fs2, list, fs4, d4, truth, l, r, cx);
  }

  // ----- the theorem about descriptors -----

  /** Wherever control arrives, the descriptor of a compiled expression has the expression's value. */
  lemma {:induction false} CompileOk(fs: FuncState, e: Expr, env: Env, start: nat, r0: Regs, outer: set<nat>)
    requires Between(fs, outer, start) && Run(fs.code, env, start, r0) != Stuck
    requires LocalsActive(e, fs.nactvar) && Compile(fs, e).0.k <= env.k
    ensures var (fs', d) := Compile(fs, e);
            Full(fs', d, Entered(fs, e, env, start, r0, outer)) && TrueConstant(fs', d)
    decreases e
  {
    hide Full, Run, Inv, Prefix, Infix, Posfix, Entered, FirstOperand, Forked, KindValue, StartOk;
    BetweenFacts(fs, outer, start);
    match e
    case EUn(op, x) =>
      var (fs1, d) := Compile(fs, x);
      CompileOk(fs, x, env, start, r0, outer);
      UnaryCase(fs, op, x, fs1, d, Entered(fs, e, env, start, r0, outer));
    case EBin(op, l, r) =>
      var (fs1, d1) := Compile(fs, l);
      var (fs2, d2) := Infix(fs1, op, d1);
      var (fs3, d3) := Compile(fs2, r);
      assert fs2.k <= fs3.k <= env.k;
      CompileOk(fs, l, env, start, r0, outer);
      if op.OPR_AND? || op.OPR_OR? {
        var truth := op.OPR_AND?;
        assert op == TestOp(truth);
        TestCase(fs, truth, l, r, fs1, d1, Entered(fs, e, env, start, r0, outer));
        var outer2 := outer + Elems(TestList(d2, truth));
        CompileOk(fs2, r, env, start, r0, outer2);
        TestCaseEnd(fs, truth, l, r, fs1, d1, fs3, d3, Entered(fs, e, env, start, r0, outer));
      } else {
        OperandCase(fs, op, l, r, fs1, d1, Entered(fs, e, env, start, r0, outer));
        CompileOk(fs2, r, env, start, r0, outer);
        OperandCaseEnd(fs, op, l, r, fs1, d1, fs3, d3, Entered(fs, e, env, start, r0, outer));
      }
    case _ => LeafCase(fs, e, env, start, r0, outer);
  }

  // ----- whole assignments -----

  /** The initialisation of a new local: the value goes to the first free register. */
  function CompileLocal(fs: FuncState, e: Expr): (r: FuncState)
    ensures r.nactvar == fs.nactvar
  {
    var (fs1, d) := Compile(fs, e);
    Exp2NextReg(fs1, d).0
  }

  /** `luaK_storevar` to an active local. */
  function CompileStore(fs: FuncState, e: Expr, reg: nat): FuncState {
    var (fs1, d) := Compile(fs, e);
    Exp2Reg(FreeExp(fs1, d), d, reg).0
  }

  /** The code once the next instruction, or the end of the function, settles the jumps to here. */
  function Settle(fs: FuncState): seq<Instr> {
    DischargeJpc(fs).code
  }

  /** The machine, started at `start`, ends in the given way. */
  ghost predicate Reaches(code: seq<Instr>, env: Env, start: nat, r0: Regs, v: Res<Value>, r: Regs, base: int, reg: int)
  {
    match v
    case Fail => exists n :: Steps(code, env, n, Running(start, r0)) == Raised
    case Ok(x) =>
      exists n, r' :: Steps(code, env, n, Running(start, r0)) == Running(|code|, r')
                      && Get(r', reg) == x && Agree(r', r, base, reg)
  }

  lemma SettledMachine(fs: FuncState, reg: int, cx: Context)
    requires cx.outer == {} && cx.entry.Arrives?
    requires EInv(fs, ExpDesc(VNONRELOC(reg), [], []), cx) && Means(fs, ExpDesc(VNONRELOC(reg), [], []), cx)
    requires cx.except == -1 || cx.except == reg
    ensures Complete(Settle(fs))
    ensures Reaches(Settle(fs), cx.env, cx.start, cx.r0, cx.entry.v, cx.entry.r, cx.base, reg)
  {
    var d := ExpDesc(VNONRELOC(reg), [], []);
    assert cx.outer + Owned(d) == {};
    var code := Settle(fs);
    DischargeJpcOk(fs, {});
    DischargeJpcRun(fs, {}, cx.env, cx.start, cx.r0);
    forall i: nat | i < |code|
      ensures !code[i].Hole?
    {
      assert i !in Holes(code);
    }
    forall i: nat | i < |code| && IsTest(code[i])
      ensures i + 1 < |code| && code[i + 1].Jmp?
    {
      assert ShapeAt(code, DischargeJpc(fs).lasttarget, i);
    }
    RunIsExecution(code, cx.env, cx.start, cx.r0);
    var o := Run(fs.code, cx.env, cx.start, cx.r0);
    if o.Exit? {
      ArrivedValue(fs, d, cx);
      assert Run(code, cx.env, cx.start, cx.r0) == Exit(|code|, o.regs);
    }
  }

  /** Compiler correctness. If the code so far, started anywhere, arrives here with registers `r`,
      then with the code of the assignment added the machine arrives at its end with the value of the
      expression in the target register and every other register in use unchanged, or it raises
      an error when the evaluator does. */
  lemma LocalCorrect(fs: FuncState, e: Expr, env: Env, start: nat, r0: Regs)
    requires Between(fs, {}, start) && LocalsActive(e, fs.nactvar)
    requires var o := Run(fs.code, env, start, r0); o.Exit?
    requires CompileLocal(fs, e).k <= env.k
    ensures var fs' := CompileLocal(fs, e);
            var r := Run(fs.code, env, start, r0).regs;
            && Complete(Settle(fs'))
            && Reaches(Settle(fs'), env, start, r0, Eval(e, r, env.up), r, fs.freereg, fs.freereg)
            && fs'.freereg == fs.freereg + 1 && Between(fs', {}, start)
  {
    hide Run, Exp2NextReg, Means;
    var cx := Entered(fs, e, env, start, r0, {});
    ArrivesHere(fs, e, env, start, r0);
    var (fs1, d) := Compile(fs, e);
    var (fs', d') := Exp2NextReg(fs1, d);
    CompileOk(fs, e, env, start, r0, {});
    Exp2NextRegOk(fs1, d, cx);
    assert cx.outer + Owned(d') == {};
    SettledMachine(fs', fs.freereg, cx);
  }

  lemma StoreCorrect(fs: FuncState, e: Expr, reg: nat, env: Env, start: nat, r0: Regs)
    requires Between(fs, {}, start) && LocalsActive(e, fs.nactvar) && reg < fs.nactvar
    requires var o := Run(fs.code, env, start, r0); o.Exit?
    requires CompileStore(fs, e, reg).k <= env.k
    ensures var fs' := CompileStore(fs, e, reg);
            var r := Run(fs.code, env, start, r0).regs;
            && Complete(Settle(fs'))
            && Reaches(Settle(fs'), env, start, r0, Eval(e, r, env.up), r, fs.freereg, reg)
            && fs'.freereg == fs.freereg && Between(fs', {}, start)
  {
    hide Run, Exp2Reg, Means;
    var cx := Entered(fs, e, env, start, r0, {});
    ArrivesHere(fs, e, env, start, r0);
    var (fs1, d) := Compile(fs, e);
    var fs2 := FreeExp(fs1, d);
    var (fs', d') := Exp2Reg(fs2, d, reg);
    CompileOk(fs, e, env, start, r0, {});
    ChangeFree(fs1, fs2.freereg, d, cx);
    Exp2RegOk(fs2, d, reg, cx);
    assert cx.outer + Owned(d') == {};
    SettledMachine(fs', reg, Target(cx, reg));
  }

  lemma ArrivesHere(fs: FuncState, e: Expr, env: Env, start: nat, r0: Regs)
    requires Between(fs, {}, start) && Run(fs.code, env, start, r0).Exit?
    ensures var o := Run(fs.code, env, start, r0);
            var cx := Entered(fs, e, env, start, r0, {});
            Here(fs, o.pc) && cx.entry == Arrives(Eval(e, o.regs, env.up), o.regs)
  {
    ExitsInRange(fs.code, fs.lasttarget, env, start, r0);
    var o := Run(fs.code, env, start, r0);
    if o.pc < |fs.code| { assert o.pc in Holes(fs.code); }
  }
}

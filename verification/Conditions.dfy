/** Short-circuit operators and negation. */
module Conditions {
  import opened Values
  import opened Bytecode
  import opened CodeGen
  import opened PartialCode
  import opened Emission
  import opened Meaning
  import opened Closing
  import opened Operands

  predicate ContextInv(fs: FuncState, t: seq<nat>, f: seq<nat>, cx: Context) {
    && Inv(fs, cx.outer + Elems(t) + Elems(f))
    && cx.outer !! Elems(t) !! Elems(f)
    && NoDup(t) && NoDup(f)
    && SameJumps(cx.code0, fs.code, cx.outer)
    && StartOk(fs.code, fs.lasttarget, cx.start)
    && fs.k <= cx.env.k
    && 0 <= fs.nactvar <= cx.base && fs.freereg == cx.base
    && cx.except == -1
    && (cx.entry.Elsewhere? ==> cx.entry.o.Error? || (cx.entry.o.Exit? && cx.entry.o.pc in cx.outer))
  }

  /** Control goes on when the value is as true as `truth`; the exits carry the value. */
  predicate Forks(fs: FuncState, t: seq<nat>, f: seq<nat>, cx: Context, truth: bool) {
    var o := Run(fs.code, cx.env, cx.start, cx.r0);
    match cx.entry
    case Elsewhere(o') => o == o'
    case Arrives(v, r) =>
      match o
      case Error => v == Fail
      case Stuck => false
      case Exit(p, r') =>
        && Agree(r', r, cx.base, -1) && v.Ok?
        && (|| (Here(fs, p) && IsFalse(v.value) == !truth)
            || (p in t && Carries(fs.code, p, v.value, r', true))
            || (p in f && Carries(fs.code, p, v.value, r', false)))
  }

  predicate Forked(fs: FuncState, t: seq<nat>, f: seq<nat>, cx: Context, truth: bool) {
    ContextInv(fs, t, f, cx) && Forks(fs, t, f, cx, truth)
  }

  /** Where control is, a test of the expression's value is to follow. */
  predicate BeforeTest(fs: FuncState, t: seq<nat>, f: seq<nat>, i: Instr, cond: bool, cx: Context)
    requires IsTest(i)
  {
    var o := Run(fs.code, cx.env, cx.start, cx.r0);
    match cx.entry
    case Elsewhere(o') => o == o'
    case Arrives(v, r) =>
      match o
      case Error => v == Fail
      case Stuck => false
      case Exit(p, r') =>
        && Agree(r', r, cx.base, -1) && v.Ok?
        && (|| (Here(fs, p) && Taken(i, cx.env, r') == Ok(IsFalse(v.value) != cond)
                && if i.TestSet? then Get(r', i.b) == v.value else v.value.Bool?)
            || (p in t && Carries(fs.code, p, v.value, r', true))
            || (p in f && Carries(fs.code, p, v.value, r', false)))
  }

  lemma HolesBelow(fs: FuncState, t: seq<nat>, f: seq<nat>, cx: Context)
    requires ContextInv(fs, t, f, cx)
    ensures forall p :: p in t || p in f || p in fs.jpc || p in cx.outer ==> p < |fs.code| && fs.code[p].Hole?
    ensures forall p :: p in t || p in f || p in cx.outer ==> !Here(fs, p)
  {
    forall p | p in t || p in f || p in fs.jpc || p in cx.outer
      ensures p in Holes(fs.code)
    {
      assert p in Elems(t) || p in Elems(f) || p in Elems(fs.jpc) || p in cx.outer;
    }
    forall p | p in t || p in f || p in cx.outer
      ensures !Here(fs, p)
    {
      assert p in cx.outer + Elems(t) + Elems(f);
      assert p in fs.jpc ==> p in Elems(fs.jpc);
    }
  }

  lemma AddToList(list: seq<nat>, p: nat)
    ensures Elems(list + [p]) == Elems(list) + {p}
    ensures NoDup(list) && p !in list ==> NoDup(list + [p])
  {
  }

  lemma TestForks(fs: FuncState, t: seq<nat>, f: seq<nat>, i: Instr, cond: bool, cx: Context)
    requires ContextInv(fs, t, f, cx) && (i.Test? || (i.TestSet? && i.a == NO_REG))
    requires BeforeTest(fs, t, f, i, cond, cx)
    ensures var (fs', list) := CondJump(fs, i);
            && list == [|fs.code| + 1]
            && Forked(fs', if cond then t + list else t, if cond then f else f + list, cx, !cond)
  {
    hide Run, CondJump;
    var outer := cx.outer + Elems(t) + Elems(f);
    var (fs', list) := CondJump(fs, i);
    var p := |fs.code| + 1;
    CondJumpOk(fs, i, outer);
    CondJumpRun(fs, i, outer, cx.env, cx.start, cx.r0);
    HolesBelow(fs, t, f, cx);
    AddToList(t, p);
    AddToList(f, p);
    var t', f' := if cond then t + list else t, if cond then f else f + list;
    assert cx.outer + Elems(t') + Elems(f') == outer + {p};
    StartAfterCond(fs, i, outer, cx.start);
    forall q | q in outer
      ensures SameJump(fs.code, fs'.code, q)
    {
    }
    forall q | q in cx.outer
      ensures SameJump(cx.code0, fs'.code, q)
    {
      assert q in outer;
    }
    TestForksRun(fs, t, f, i, cond, cx, fs');
  }

  lemma StartAfterCond(fs: FuncState, i: Instr, outer: set<nat>, start: nat)
    requires Inv(fs, outer) && IsTest(i) && StartOk(fs.code, fs.lasttarget, start)
    ensures var fs' := CondJump(fs, i).0; start < |fs'.code| && !Shadowed(fs'.code, start)
  {
    if start > 0 { StartKept(fs, outer, start); }
    assert CondJump(fs, i).0.code == DischargeJpc(fs).code + [i] + [Hole];
  }

  lemma TestForksRun(fs: FuncState, t: seq<nat>, f: seq<nat>, i: Instr, cond: bool, cx: Context, fs': FuncState)
    requires ContextInv(fs, t, f, cx) && (i.Test? || (i.TestSet? && i.a == NO_REG))
    requires BeforeTest(fs, t, f, i, cond, cx)
    requires |fs'.code| == |fs.code| + 2 && fs'.code[|fs.code|] == i && fs'.code[|fs.code| + 1].Hole? && fs'.jpc == []
    requires SameJumps(fs.code, fs'.code, cx.outer + Elems(t) + Elems(f))
    requires var o := Run(fs.code, cx.env, cx.start, cx.r0);
             Run(fs'.code, cx.env, cx.start, cx.r0) ==
             if o.Exit? && Here(fs, o.pc) then
               match Taken(i, cx.env, o.regs)
               case Fail => Error
               case Ok(true) => Exit(|fs.code| + 1, o.regs)
               case Ok(false) => Exit(|fs.code| + 2, o.regs)
             else o
    ensures var p := |fs.code| + 1;
            Forks(fs', if cond then t + [p] else t, if cond then f else f + [p], cx, !cond)
  {
    hide Run;
    HolesBelow(fs, t, f, cx);
    var o := Run(fs.code, cx.env, cx.start, cx.r0);
    var p := |fs.code| + 1;
    if cx.entry.Arrives? && o.Exit? {
      var q := o.pc;
      if Here(fs, q) {
        ValueJumpControl(fs'.code, p);
      } else if q in t {
        assert q in Elems(t) && SameJump(fs.code, fs'.code, q);
        if Carries(fs.code, q, cx.entry.v.value, o.regs, true) {
          CarriesSame(fs.code, fs'.code, q, cx.entry.v.value, o.regs, true);
        }
      } else {
        assert q in Elems(f) && SameJump(fs.code, fs'.code, q);
        CarriesSame(fs.code, fs'.code, q, cx.entry.v.value, o.regs, false);
      }
      if q in f && !Here(fs, q) {
        assert q in Elems(f) && SameJump(fs.code, fs'.code, q);
        if Carries(fs.code, q, cx.entry.v.value, o.regs, false) {
          CarriesSame(fs.code, fs'.code, q, cx.entry.v.value, o.regs, false);
        }
      }
    }
  }

  // ----- jumponcond -----

  lemma Discharge2AnyRegOk(fs: FuncState, e: ExpDesc, cx: Context)
    requires Full(fs, e, cx) && !e.k.VJMP? && Discharge2AnyReg(fs, e).0.k <= cx.env.k
    ensures var (fs', e') := Discharge2AnyReg(fs, e);
            && Full(fs', e', cx) && e'.k.VNONRELOC? && e'.t == e.t && e'.f == e.f
            && FreeExp(fs', e').freereg == cx.base
  {
    hide EInv, Means, Discharge2Reg;
    NactvarLow(fs, e, cx);
    if !e.k.VNONRELOC? {
      var fs1 := ReserveRegs(fs, 1);
      ChangeFree(fs, fs1.freereg, e, cx);
      Discharge2RegOk(fs1, e, cx.base, cx);
      var (fs', e') := Discharge2Reg(fs1, e, cx.base);
      TargetAbove(fs', e', cx.base, cx);
    }
  }

  /** A descriptor in a register, ready for a test of that register. */
  lemma RegisterBeforeTest(fs: FuncState, e: ExpDesc, cond: bool, cx: Context)
    requires Full(fs, e, cx) && e.k.VNONRELOC?
    ensures var fs1 := FreeExp(fs, e);
            && ContextInv(fs1, e.t, e.f, cx)
            && BeforeTest(fs1, e.t, e.f, TestSet(NO_REG, e.k.reg, cond), cond, cx)
  {
    assert Owned(e) == Elems(e.t) + Elems(e.f);
    assert cx.outer + Owned(e) == cx.outer + Elems(e.t) + Elems(e.f);
    var o := Run(fs.code, cx.env, cx.start, cx.r0);
    if cx.entry.Arrives? && Arrived(fs, e, o) { ArrivedValue(fs, e, cx); }
  }

  /** A negation just computed is dropped and its operand tested instead. */
  lemma NotBeforeTest(fs: FuncState, e: ExpDesc, cond: bool, cx: Context)
    requires Full(fs, e, cx) && e.k.VRELOCABLE? && fs.code[e.k.pc].Not?
    ensures var fs1 := fs.(code := fs.code[..|fs.code| - 1]);
            && ContextInv(fs1, e.t, e.f, cx)
            && BeforeTest(fs1, e.t, e.f, Test(fs.code[e.k.pc].b, !cond), cond, cx)
  {
    CoreShape(fs, e, cx);
    var core := Core(fs, e);
    assert Owned(e) == Elems(e.t) + Elems(e.f);
    assert cx.outer + Owned(e) == cx.outer + Elems(e.t) + Elems(e.f);
    forall p | p in cx.outer
      ensures SameJump(cx.code0, core, p)
    {
      assert SameJump(cx.code0, fs.code, p) && SameJump(fs.code, core, p);
    }
    var o := Run(core, cx.env, cx.start, cx.r0);
    if cx.entry.Arrives? && o.Exit? {
      if Arrived(fs, e, o) {
        ArrivedValue(fs, e, cx);
      } else {
        assert forall p :: p in e.t ==> p in Elems(e.t);
        assert forall p :: p in e.f ==> p in Elems(e.f);
        assert SameJump(fs.code, core, o.pc);
        var v := cx.entry.v.value;
        if Carries(fs.code, o.pc, v, o.regs, true) { CarriesSame(fs.code, core, o.pc, v, o.regs, true); }
        if Carries(fs.code, o.pc, v, o.regs, false) { CarriesSame(fs.code, core, o.pc, v, o.regs, false); }
      }
    }
  }

  lemma JumpOnCondOk(fs: FuncState, e: ExpDesc, cond: bool, cx: Context)
    requires Full(fs, e, cx) && !e.k.VJMP? && JumpOnCond(fs, e, cond).0.k <= cx.env.k
    ensures var (fs', list) := JumpOnCond(fs, e, cond);
            && |list| == 1
            && Forked(fs', if cond then e.t + list else e.t, if cond then e.f else e.f + list, cx, !cond)
  {
    hide Full, CondJump, Discharge2Reg, Discharge2AnyReg, ContextInv, BeforeTest, Forked;
    if e.k.VRELOCABLE? && e.k.pc < |fs.code| && fs.code[e.k.pc].Not? {
      NotBeforeTest(fs, e, cond, cx);
      TestForks(fs.(code := fs.code[..|fs.code| - 1]), e.t, e.f, Test(fs.code[e.k.pc].b, !cond), cond, cx);
    } else {
      var (fs1, e1) := Discharge2AnyReg(fs, e);
      Discharge2AnyRegOk(fs, e, cx);
      RegisterBeforeTest(fs1, e1, cond, cx);
      TestForks(FreeExp(fs1, e1), e1.t, e1.f, TestSet(NO_REG, e1.k.reg, cond), cond, cx);
    }
  }

  // ----- comparisons as conditions -----

  lemma JumpForks(fs: FuncState, e: ExpDesc, cx: Context)
    requires Full(fs, e, cx) && e.k.VJMP?
    ensures Forked(fs, e.t + [e.k.jump], e.f, cx, false)
  {
    JumpAsFalseOk(fs, e, cx);
    var e' := JumpAsFalse(e);
    assert cx.outer + Owned(e') == cx.outer + Elems(e'.t) + Elems(e'.f);
    assert cx.outer !! Elems(e'.t) !! Elems(e'.f) by { assert cx.outer !! Owned(e'); }
  }

  /** `invertjump`: the comparison now jumps when its value is false. */
  lemma InvertOk(fs: FuncState, e: ExpDesc, cx: Context)
    requires Full(fs, e, cx) && e.k.VJMP?
    ensures var fs' := InvertJump(fs, e.k.jump);
            var n := |fs.code| - 2;
            var i := fs.code[n];
            && n >= 0 && i.Cmp? && fs'.code == Core(fs, e) + [i.(cond := !i.cond)] + [Hole]
            && fs' == fs.(code := fs'.code)
            && Inv(fs', cx.outer + Owned(e)) && KindInv(fs', e)
            && SameJumps(fs.code, fs'.code, cx.outer + Owned(e))
  {
    var fs' := InvertJump(fs, e.k.jump);
    var n := |fs.code| - 2;
    var i := fs.code[n];
    var i' := i.(cond := !i.cond);
    assert fs'.code == fs.code[n := i'];
    assert fs'.code == Core(fs, e) + [i'] + [Hole];
    forall j: nat | j < |fs'.code|
      ensures ShapeAt(fs'.code, fs'.lasttarget, j)
    {
      assert ShapeAt(fs.code, fs.lasttarget, j);
    }
    assert forall p: nat :: p in Holes(fs'.code) <==> p in Holes(fs.code);
    assert Holes(fs'.code) == Holes(fs.code);
    forall p | p in cx.outer + Owned(e)
      ensures SameJump(fs.code, fs'.code, p)
    {
      assert p in Holes(fs.code);
    }
  }

  lemma InvertForks(fs: FuncState, e: ExpDesc, cx: Context)
    requires Full(fs, e, cx) && e.k.VJMP?
    ensures Forked(InvertJump(fs, e.k.jump), e.t, e.f + [e.k.jump], cx, true)
  {
    hide InvertJump;
    InvertOk(fs, e, cx);
    var fs' := InvertJump(fs, e.k.jump);
    var core := Core(fs, e);
    var n := |core|;
    var i := fs.code[n];
    var i' := i.(cond := !i.cond);
    AddToList(e.f, e.k.jump);
    assert cx.outer + Owned(e) == cx.outer + Elems(e.t) + Elems(e.f + [e.k.jump]);
    assert !Shadowed(fs'.code, cx.start) by { assert !Shadowed(core, cx.start); }
    forall p | p in cx.outer
      ensures SameJump(cx.code0, fs'.code, p)
    {
      assert SameJump(cx.code0, fs.code, p) && SameJump(fs.code, fs'.code, p);
    }
    AppendTestRun(fs, e, i', cx);
    InvertForksRun(fs, e, fs', cx);
  }

  /** A comparison and its jump after the core of a descriptor. */
  lemma AppendTestRun(fs: FuncState, e: ExpDesc, i: Instr, cx: Context)
    requires EInv(fs, e, cx) && i.Cmp?
    ensures var core := Core(fs, e);
            var o := Run(core, cx.env, cx.start, cx.r0);
            Run(core + [i] + [Hole], cx.env, cx.start, cx.r0) ==
            if o.Exit? && o.pc == |core| then
              match Taken(i, cx.env, o.regs)
              case Fail => Error
              case Ok(true) => Exit(|core| + 1, o.regs)
              case Ok(false) => Exit(|core| + 2, o.regs)
            else o
  {
    var core := Core(fs, e);
    CoreShape(fs, e, cx);
    ExitsInRange(core, fs.lasttarget, cx.env, cx.start, cx.r0);
    AppendRun(core, i, cx.env, cx.start, cx.r0);
    AppendRun(core + [i], Hole, cx.env, cx.start, cx.r0);
    var o := Run(core, cx.env, cx.start, cx.r0);
    if o.Exit? { CompareRun(core, i, cx.env, o.regs); }
  }

  lemma InvertForksRun(fs: FuncState, e: ExpDesc, fs': FuncState, cx: Context)
    requires Full(fs, e, cx) && e.k.VJMP?
    requires fs'.jpc == [] && |fs'.code| == |fs.code| && fs'.code[|fs.code| - 2].Cmp? && fs'.code[|fs.code| - 1].Hole?
    requires SameJumps(fs.code, fs'.code, Owned(e))
    requires var core := Core(fs, e);
             var i := fs.code[|fs.code| - 2];
             var o := Run(core, cx.env, cx.start, cx.r0);
             Run(fs'.code, cx.env, cx.start, cx.r0) ==
             if o.Exit? && o.pc == |core| then
               match Taken(i.(cond := !i.cond), cx.env, o.regs)
               case Fail => Error
               case Ok(true) => Exit(|core| + 1, o.regs)
               case Ok(false) => Exit(|core| + 2, o.regs)
             else o
    ensures Forks(fs', e.t, e.f + [e.k.jump], cx, true)
  {
    hide Run;
    var o := Run(Core(fs, e), cx.env, cx.start, cx.r0);
    match cx.entry
    case Elsewhere(_) => OuterExits(fs, e, cx);
    case Arrives(v, r) =>
      if Arrived(fs, e, o) {
        ArrivedValue(fs, e, cx);
        ValueJumpControl(fs'.code, e.k.jump);
      } else if o.Exit? && v.Ok? {
        assert forall p :: p in e.t ==> p in Elems(e.t) && p in Holes(fs.code);
        assert forall p :: p in e.f ==> p in Elems(e.f) && p in Holes(fs.code);
        assert SameJump(fs.code, fs'.code, o.pc);
        if Carries(fs.code, o.pc, v.value, o.regs, true) {
          CarriesSame(fs.code, fs'.code, o.pc, v.value, o.regs, true);
        }
        if Carries(fs.code, o.pc, v.value, o.regs, false) {
          CarriesSame(fs.code, fs'.code, o.pc, v.value, o.regs, false);
        }
      }
  }

  // ----- goiftrue and goiffalse -----

  /** The exits on the side that goes on are patched to here. */
  lemma PatchBack(fs: FuncState, t: seq<nat>, f: seq<nat>, cx: Context, truth: bool)
    requires Forked(fs, t, f, cx, truth)
    ensures Forked(PatchToHere(fs, if truth then t else f), if truth then [] else t, if truth then f else [], cx, truth)
  {
    hide ContextInv, Forks;
    PatchInv(fs, t, f, cx, truth);
    PatchForks(fs, t, f, cx, truth);
  }

  lemma PatchInv(fs: FuncState, t: seq<nat>, f: seq<nat>, cx: Context, truth: bool)
    requires ContextInv(fs, t, f, cx)
    ensures ContextInv(PatchToHere(fs, if truth then t else f), if truth then [] else t, if truth then f else [], cx)
  {
    var back, keep := if truth then t else f, if truth then f else t;
    LabelOk(fs, cx.outer + Elems(t) + Elems(f), cx.start);
    assert cx.outer + Elems(t) + Elems(f) == cx.outer + Elems(keep) + Elems(back);
    assert Elems([]) == {};
    assert (cx.outer + Elems(keep)) !! Elems(back);
    hide Inv;
    JoinJpc(GetLabel(fs), cx.outer + Elems(keep), back);
    assert cx.outer + Elems(keep) == cx.outer + Elems(if truth then [] else t) + Elems(if truth then f else []);
  }

  /** A list of pending jumps becomes part of those that lead to the next instruction. */
  lemma JoinJpc(fs: FuncState, outer: set<nat>, list: seq<nat>)
    requires Inv(fs, outer + Elems(list)) && NoDup(list) && outer !! Elems(list) && fs.lasttarget == |fs.code|
    ensures Inv(fs.(jpc := fs.jpc + list), outer)
  {
    hide Shape, Holes;
    var jpc := fs.jpc + list;
    assert Elems(jpc) == Elems(fs.jpc) + Elems(list);
    assert forall i :: 0 <= i < |fs.jpc| ==> fs.jpc[i] in Elems(fs.jpc);
    assert forall i :: 0 <= i < |list| ==> list[i] in Elems(list);
  }

  lemma PatchForks(fs: FuncState, t: seq<nat>, f: seq<nat>, cx: Context, truth: bool)
    requires Forked(fs, t, f, cx, truth)
    ensures Forks(PatchToHere(fs, if truth then t else f), if truth then [] else t, if truth then f else [], cx, truth)
  {
    HolesBelow(fs, t, f, cx);
    hide ContextInv;
  }

  lemma NoTest(fs: FuncState, e: ExpDesc, truth: bool, cx: Context)
    requires Full(fs, e, cx) && IsPlain(e.k)
    requires forall r: Regs :: KindValue(fs, e, cx.env, r).Ok? && IsFalse(KindValue(fs, e, cx.env, r).value) == !truth
    requires fs.freereg == cx.base
    ensures Forked(fs, e.t, e.f, cx, truth)
  {
    assert cx.outer + Owned(e) == cx.outer + Elems(e.t) + Elems(e.f);
    assert cx.outer !! Elems(e.t) !! Elems(e.f) by { assert cx.outer !! Owned(e); }
    var o := Run(fs.code, cx.env, cx.start, cx.r0);
    if cx.entry.Arrives? && Arrived(fs, e, o) { ArrivedValue(fs, e, cx); }
  }

  /** Constants that `simpleexp` and folding put in a descriptor are true. */
  predicate TrueConstant(fs: FuncState, e: ExpDesc) {
    e.k.VK? ==> e.k.info < |fs.k| && !IsFalse(fs.k[e.k.info])
  }

  lemma GoIfTrueOk(fs: FuncState, e: ExpDesc, cx: Context)
    requires Full(fs, e, cx) && TrueConstant(fs, e) && GoIfTrue(fs, e).0.k <= cx.env.k
    ensures var (fs', e') := GoIfTrue(fs, e);
            e'.t == [] && Forked(fs', [], e'.f, cx, true)
  {
    hide Full, InvertJump, JumpOnCond, Forked;
    var (fs1, e1) := DischargeVars(fs, e);
    DischargeVarsFree(fs, e, cx);
    assert e1.f + [] == e1.f;
    match e1.k
    case VJMP(pc) =>
      InvertForks(fs1, e1, cx);
      PatchBack(InvertJump(fs1, pc), e1.t, e1.f + [pc], cx, true);
    case VK(_) => ConstantForks(fs1, e1, true, cx);
    case VKNUM(_) => ConstantForks(fs1, e1, true, cx);
    case VTRUE => ConstantForks(fs1, e1, true, cx);
    case _ =>
      var (fs2, list) := JumpOnCond(fs1, e1, false);
      JumpOnCondOk(fs1, e1, false, cx);
      PatchBack(fs2, e1.t, e1.f + list, cx, true);
  }

  lemma ConstantForks(fs: FuncState, e: ExpDesc, truth: bool, cx: Context)
    requires Full(fs, e, cx) && TrueConstant(fs, e)
    requires if truth then e.k.VK? || e.k.VKNUM? || e.k.VTRUE? else e.k.VNIL? || e.k.VFALSE?
    ensures Forked(PatchToHere(fs, if truth then e.t else e.f),
                   if truth then [] else e.t, if truth then e.f else [], cx, truth)
  {
    hide Run, Land;
    if e.k.VK? { assert cx.env.k[e.k.info] == fs.k[e.k.info]; }
    NoTest(fs, e, truth, cx);
    PatchBack(fs, e.t, e.f, cx, truth);
  }

  lemma GoIfFalseOk(fs: FuncState, e: ExpDesc, cx: Context)
    requires Full(fs, e, cx) && TrueConstant(fs, e) && GoIfFalse(fs, e).0.k <= cx.env.k
    ensures var (fs', e') := GoIfFalse(fs, e);
            e'.f == [] && Forked(fs', e'.t, [], cx, false)
  {
    hide Full, InvertJump, JumpOnCond, Forked;
    var (fs1, e1) := DischargeVars(fs, e);
    DischargeVarsFree(fs, e, cx);
    assert e1.t + [] == e1.t;
    match e1.k
    case VJMP(pc) =>
      JumpForks(fs1, e1, cx);
      PatchBack(fs1, e1.t + [pc], e1.f, cx, false);
    case VNIL => ConstantForks(fs1, e1, false, cx);
    case VFALSE => ConstantForks(fs1, e1, false, cx);
    case _ =>
      var (fs2, list) := JumpOnCond(fs1, e1, true);
      JumpOnCondOk(fs1, e1, true, cx);
      PatchBack(fs2, e1.t + list, e1.f, cx, false);
  }
}

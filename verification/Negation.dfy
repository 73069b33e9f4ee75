/** `codenot`: negation without code where the value is not needed. */
module Negation {
  import opened Values
  import opened Bytecode
  import opened CodeGen
  import opened PartialCode
  import opened Emission
  import opened Meaning
  import opened Operands
  import opened Conditions

  function NotRes(v: Res<Value>): Res<Value> {
    match v
    case Ok(x) => Ok(Bool(IsFalse(x)))
    case Fail => Fail
  }

  function Negated(cx: Context): Context {
    if cx.entry.Arrives? then cx.(entry := Arrives(NotRes(cx.entry.v), cx.entry.r)) else cx
  }

  // ----- removing the values of a list -----

  lemma {:induction false} RemoveValuesOk(code: seq<Instr>, lab: nat, list: seq<nat>, env: Env, start: nat, r: Regs)
    requires Shape(code, lab) && (forall p :: p in list ==> p < |code| && code[p].Hole?)
    requires start <= |code| && !Shadowed(code, start)
    ensures var code' := RemoveValues(code, list);
            && Shape(code', lab) && Holes(code') == Holes(code) && !Shadowed(code', start)
            && (forall p :: p in list ==> !IsValueJump(code', p))
            && (forall p :: p in Holes(code) && !IsValueJump(code, p) ==> !IsValueJump(code', p))
            && (forall p :: p in Holes(code) && p !in list ==> SameJump(code, code', p))
            && Run(code', env, start, r) == Run(code, env, start, r)
    decreases |list|
  {
    if list != [] {
      var p := list[0];
      assert p in list && list == [p] + list[1..];
      var code1 := PatchTestReg(code, p, NO_REG);
      RemoveOneOk(code, lab, p, env, start, r);
      forall q | q in list[1..]
        ensures q < |code1| && code1[q].Hole?
      {
        assert q in list && q in Holes(code) && q in Holes(code1);
      }
      RemoveValuesOk(code1, lab, list[1..], env, start, r);
      var code' := RemoveValues(code, list);
      assert code' == RemoveValues(code1, list[1..]);
      assert p in Holes(code1);
      forall q | q in Holes(code) && q !in list
        ensures SameJump(code, code', q)
      {
        assert q in Holes(code1) && SameJump(code, code1, q) && SameJump(code1, code', q);
      }
    }
  }

  lemma RemoveOneOk(code: seq<Instr>, lab: nat, p: nat, env: Env, start: nat, r: Regs)
    requires Shape(code, lab) && p < |code| && code[p].Hole?
    requires start <= |code| && !Shadowed(code, start)
    ensures var code' := PatchTestReg(code, p, NO_REG);
            && Shape(code', lab) && Holes(code') == Holes(code) && !Shadowed(code', start)
            && !IsValueJump(code', p)
            && (forall q :: q in Holes(code) && !IsValueJump(code, q) ==> !IsValueJump(code', q))
            && (forall q :: q in Holes(code) && q != p ==> SameJump(code, code', q))
            && Run(code', env, start, r) == Run(code, env, start, r)
  {
    var code' := PatchTestReg(code, p, NO_REG);
    ValueJumpControl(code, p);
    if IsValueJump(code, p) {
      assert ShapeAt(code, lab, p - 1);
      RetestRun(code, p, code'[p - 1], env, start, r);
    }
    forall i: nat | i < |code'|
      ensures ShapeAt(code', lab, i)
    {
      assert ShapeAt(code, lab, i);
    }
    assert forall q: nat :: q in Holes(code') <==> q in Holes(code);
    forall q | q in Holes(code)
      ensures q != p ==> SameJump(code, code', q)
      ensures !IsValueJump(code, q) ==> !IsValueJump(code', q)
    {
      ValueJumpControl(code, q);
      ValueJumpControl(code', q);
    }
  }

  lemma {:induction false} RemoveValuesPrefix(core: seq<Instr>, tail: seq<Instr>, list: seq<nat>)
    requires forall p :: p in list ==> p < |core|
    ensures RemoveValues(core + tail, list) == RemoveValues(core, list) + tail
    decreases |list|
  {
    if list != [] {
      var p := list[0];
      assert p in list && list == [p] + list[1..];
      var code := core + tail;
      assert Control(code, p) == Control(core, p);
      assert PatchTestReg(code, p, NO_REG) == PatchTestReg(core, p, NO_REG) + tail;
      assert forall q :: q in list[1..] ==> q in list;
      RemoveValuesPrefix(PatchTestReg(core, p, NO_REG), tail, list[1..]);
    }
  }

  // ----- swapping the lists -----

  /** The exits still carry the operand's value, but where control arrives it is negated. */
  predicate HalfNegated(fs: FuncState, e: ExpDesc, cx: Context)
    requires KindInv(fs, e)
  {
    var o := Run(Core(fs, e), cx.env, cx.start, cx.r0);
    match cx.entry
    case Elsewhere(o') => o == o'
    case Arrives(v, r) =>
      match o
      case Error => v == Fail
      case Stuck => false
      case Exit(p, r') =>
        && Agree(r', r, cx.base, cx.except)
        && (|| ((p == |Core(fs, e)| || p in fs.jpc) && KindValue(fs, e, cx.env, r') == NotRes(v))
            || (v.Ok? && p in e.t && Carries(fs.code, p, v.value, r', true))
            || (v.Ok? && p in e.f && Carries(fs.code, p, v.value, r', false)))
  }

  function RemoveBoth(code: seq<Instr>, e: ExpDesc): seq<Instr> {
    RemoveValues(RemoveValues(code, e.t), e.f)
  }

  lemma RemoveBothOk(code: seq<Instr>, lab: nat, e: ExpDesc, env: Env, start: nat, r: Regs)
    requires Shape(code, lab) && (forall p :: p in e.t || p in e.f ==> p < |code| && code[p].Hole?)
    requires start <= |code| && !Shadowed(code, start)
    ensures var code' := RemoveBoth(code, e);
            && |code'| == |code| && Shape(code', lab) && Holes(code') == Holes(code) && !Shadowed(code', start)
            && (forall p :: p in e.t || p in e.f ==> p < |code| && !IsValueJump(code', p))
            && (forall p :: p in Holes(code) && p !in e.t && p !in e.f ==> SameJump(code, code', p))
            && Run(code', env, start, r) == Run(code, env, start, r)
  {
    hide RemoveValues, Run;
    RemoveValuesOk(code, lab, e.t, env, start, r);
    var code1 := RemoveValues(code, e.t);
    forall p | p in e.f
      ensures p < |code1| && code1[p].Hole?
    {
      assert p in Holes(code) && p in Holes(code1);
    }
    RemoveValuesOk(code1, lab, e.f, env, start, r);
    var code2 := RemoveValues(code1, e.f);
    forall p | p in e.t
      ensures !IsValueJump(code2, p)
    {
      assert p in Holes(code1) && !IsValueJump(code1, p);
    }
    forall p | p in Holes(code) && p !in e.t && p !in e.f
      ensures SameJump(code, code2, p)
    {
      assert SameJump(code, code1, p) && p in Holes(code1) && SameJump(code1, code2, p);
    }
  }

  lemma OwnedInCore(fs: FuncState, e: ExpDesc, cx: Context)
    requires EInv(fs, e, cx)
    ensures forall p :: p in e.t || p in e.f ==> p < |Core(fs, e)| && Core(fs, e)[p].Hole?
  {
    CoreShape(fs, e, cx);
    forall p | p in e.t || p in e.f
      ensures p < |Core(fs, e)| && Core(fs, e)[p].Hole?
    {
      assert p in Elems(e.t) || p in Elems(e.f);
      assert p in Holes(fs.code) && SameJump(fs.code, Core(fs, e), p);
    }
  }

  lemma SwapCode(fs: FuncState, e: ExpDesc, cx: Context)
    requires EInv(fs, e, cx)
    ensures var (fs', e') := SwapLists(fs, e);
            var core := Core(fs, e);
            var core' := RemoveBoth(core, e);
            && |fs'.code| == |fs.code|
            && Core(fs', e') == core' && fs'.code[|core|..] == fs.code[|core|..]
            && Inv(fs', cx.outer + Owned(e')) && KindInv(fs', e')
            && SameJumps(fs.code, fs'.code, cx.outer)
            && !Shadowed(core', cx.start)
            && Run(core', cx.env, cx.start, cx.r0) == Run(core, cx.env, cx.start, cx.r0)
            && (forall p :: p in e.t || p in e.f ==> !IsValueJump(fs'.code, p))
  {
    hide RemoveValues, Run;
    var (fs', e') := SwapLists(fs, e);
    var core := Core(fs, e);
    var tail := fs.code[|core|..];
    CoreShape(fs, e, cx);
    OwnedInCore(fs, e, cx);
    assert fs.code == core + tail;
    RemoveValuesPrefix(core, tail, e.t);
    RemoveValuesPrefix(RemoveValues(core, e.t), tail, e.f);
    RemoveBothOk(core, fs.lasttarget, e, cx.env, cx.start, cx.r0);
    SwapInv(fs, e, cx, RemoveBoth(core, e), tail);
  }

  lemma SwapInv(fs: FuncState, e: ExpDesc, cx: Context, core2: seq<Instr>, tail: seq<Instr>)
    requires EInv(fs, e, cx)
    requires var core := Core(fs, e);
             && fs.code == core + tail && |core2| == |core|
             && Shape(core2, fs.lasttarget) && Holes(core2) == Holes(core)
             && (forall p :: p in Holes(core) && p !in e.t && p !in e.f ==> SameJump(core, core2, p))
             && (forall p :: p in e.t || p in e.f ==> p < |core| && !IsValueJump(core2, p))
    ensures var fs' := fs.(code := core2 + tail);
            var e' := e.(t := e.f, f := e.t);
            && Inv(fs', cx.outer + Owned(e')) && KindInv(fs', e')
            && SameJumps(fs.code, fs'.code, cx.outer)
            && (forall p :: p in e.t || p in e.f ==> !IsValueJump(fs'.code, p))
  {
    var fs' := fs.(code := core2 + tail);
    var e' := e.(t := e.f, f := e.t);
    var core := Core(fs, e);
    CoreShape(fs, e, cx);
    NotInsideTest(core2, fs.lasttarget);
    NotInsideTest(core, fs.lasttarget);
    SwapShape(fs, core, core2, tail);
    forall p: nat
      ensures p in Holes(fs'.code) <==> p in Holes(fs.code)
    {
      if p < |core| { assert p in Holes(core2) <==> p in Holes(core); }
    }
    assert Holes(fs'.code) == Holes(fs.code);
    assert Owned(e') == Owned(e);
    forall p | p in cx.outer
      ensures SameJump(fs.code, fs'.code, p)
    {
      assert p in Holes(fs.code) && p !in Owned(e);
      assert SameJump(fs.code, core, p) && p in Holes(core);
      assert p !in Elems(e.t) && p !in Elems(e.f);
      assert SameJump(core, core2, p);
    }
  }

  lemma SwapShape(fs: FuncState, core: seq<Instr>, core2: seq<Instr>, tail: seq<Instr>)
    requires fs.code == core + tail && |core2| == |core| && Shape(core2, fs.lasttarget) && Shape(fs.code, fs.lasttarget)
    requires Shape(core, fs.lasttarget)
    requires !Shadowed(core2, |core2|) && !Shadowed(core, |core|)
    ensures Shape(core2 + tail, fs.lasttarget)
  {
    var code := core2 + tail;
    forall j: nat | j < |code|
      ensures ShapeAt(code, fs.lasttarget, j)
    {
      if j < |core2| { assert ShapeAt(core2, fs.lasttarget, j); } else { assert ShapeAt(fs.code, fs.lasttarget, j); }
    }
  }

  lemma SwapOk(fs: FuncState, e: ExpDesc, cx: Context)
    requires EInv(fs, e, cx) && HalfNegated(fs, e, cx)
    ensures var (fs', e') := SwapLists(fs, e);
            EInv(fs', e', cx) && Means(fs', e', Negated(cx))
  {
    hide RemoveValues;
    var (fs', e') := SwapLists(fs, e);
    SwapCode(fs, e, cx);
    forall p | p in cx.outer
      ensures SameJump(cx.code0, fs'.code, p)
    {
      assert SameJump(cx.code0, fs.code, p) && SameJump(fs.code, fs'.code, p);
    }
    var n := |Core(fs, e)|;
    var o := Run(Core(fs, e), cx.env, cx.start, cx.r0);
    if cx.entry.Arrives? && o.Exit? && (o.pc == n || o.pc in fs.jpc) {
      KindValueTail(fs, fs', e, e', cx, o.regs);
    }
  }

  lemma KindValueTail(fs: FuncState, fs': FuncState, e: ExpDesc, e': ExpDesc, cx: Context, r: Regs)
    requires KindInv(fs, e) && KindInv(fs', e') && e'.k == e.k && |fs'.code| == |fs.code|
    requires fs'.code[|Core(fs, e)|..] == fs.code[|Core(fs, e)|..]
    ensures KindValue(fs', e', cx.env, r) == KindValue(fs, e, cx.env, r)
  {
    var n := |Core(fs, e)|;
    if e.k.VRELOCABLE? {
      assert fs'.code[n] == fs'.code[n..][0] == fs.code[n..][0];
    } else if e.k.VJMP? {
      assert fs'.code[n] == fs'.code[n..][0] == fs.code[n..][0];
    }
  }

  // ----- codenot -----

  lemma HalfNegatedConstant(fs: FuncState, e: ExpDesc, k: Kind, cx: Context)
    requires Full(fs, e, cx) && TrueConstant(fs, e)
    requires if k.VTRUE? then e.k.VNIL? || e.k.VFALSE? else k.VFALSE? && (e.k.VK? || e.k.VKNUM? || e.k.VTRUE?)
    ensures EInv(fs, e.(k := k), cx) && HalfNegated(fs, e.(k := k), cx)
  {
    if e.k.VK? { assert cx.env.k[e.k.info] == fs.k[e.k.info]; }
    assert Owned(e.(k := k)) == Owned(e);
    if cx.entry.Arrives? && Arrived(fs, e, Run(fs.code, cx.env, cx.start, cx.r0)) { ArrivedValue(fs, e, cx); }
  }

  lemma HalfNegatedJump(fs: FuncState, e: ExpDesc, cx: Context)
    requires Full(fs, e, cx) && e.k.VJMP?
    ensures var fs' := InvertJump(fs, e.k.jump); EInv(fs', e, cx) && HalfNegated(fs', e, cx)
  {
    hide InvertJump;
    InvertOk(fs, e, cx);
    var fs' := InvertJump(fs, e.k.jump);
    var o := Run(Core(fs, e), cx.env, cx.start, cx.r0);
    assert Core(fs', e) == Core(fs, e);
    assert !Shadowed(fs'.code, cx.start) by { assert !Shadowed(Core(fs, e), cx.start); }
    if cx.entry.Arrives? {
      if Arrived(fs, e, o) {
        ArrivedValue(fs, e, cx);
      } else if o.Exit? && cx.entry.v.Ok? {
        assert forall p :: p in e.t || p in e.f ==> p in Owned(e) && p in Holes(fs.code);
        assert SameJump(fs.code, fs'.code, o.pc);
        var v := cx.entry.v.value;
        if Carries(fs.code, o.pc, v, o.regs, true) { CarriesSame(fs.code, fs'.code, o.pc, v, o.regs, true); }
        if Carries(fs.code, o.pc, v, o.regs, false) { CarriesSame(fs.code, fs'.code, o.pc, v, o.regs, false); }
      }
    }
  }

  lemma HalfNegatedReg(fs: FuncState, e: ExpDesc, cx: Context)
    requires Full(fs, e, cx) && e.k.VNONRELOC? && FreeExp(fs, e).freereg == cx.base
    ensures var fsn := FreeExp(fs, e);
            var fs' := Code(fsn, Not(0, e.k.reg));
            var e' := e.(k := VRELOCABLE(|fsn.code|));
            EInv(fs', e', cx) && HalfNegated(fs', e', cx) && fs'.freereg == cx.base
  {
    hide Run;
    var fsn := FreeExp(fs, e);
    var i := Not(0, e.k.reg);
    var fs' := Code(fsn, i);
    var e' := e.(k := VRELOCABLE(|fsn.code|));
    ChangeFree(fs, cx.base, e, cx);
    EmitReloc(fsn, e, i, cx);
    var o := Run(fsn.code, cx.env, cx.start, cx.r0);
    match cx.entry
    case Elsewhere(_) => OuterExits(fsn, e, cx);
    case Arrives(v, r) =>
      if Arrived(fsn, e, o) {
        ArrivedValue(fsn, e, cx);
      } else if o.Exit? && v.Ok? {
        assert forall p :: p in e.t || p in e.f ==> p in Owned(e) && p in Holes(fsn.code);
        assert forall p :: p in e.t ==> p in Elems(e.t);
        assert forall p :: p in e.f ==> p in Elems(e.f);
        assert SameJump(fsn.code, fs'.code, o.pc);
        if Carries(fsn.code, o.pc, v.value, o.regs, true) {
          CarriesSame(fsn.code, fs'.code, o.pc, v.value, o.regs, true);
        }
        if Carries(fsn.code, o.pc, v.value, o.regs, false) {
          CarriesSame(fsn.code, fs'.code, o.pc, v.value, o.regs, false);
        }
      }
  }

  lemma FullNegated(fs: FuncState, e: ExpDesc, cx: Context)
    requires EInv(fs, e, cx) && HalfNegated(fs, e, cx) && fs.freereg == cx.base && cx.except == -1
    requires !e.k.VNONRELOC? && !e.k.VLOCAL? && !e.k.VK?
    ensures var (fs', e') := SwapLists(fs, e);
            Full(fs', e', Negated(cx)) && TrueConstant(fs', e')
  {
    SwapOk(fs, e, cx);
  }

  lemma CodeNotOk(fs: FuncState, e: ExpDesc, cx: Context)
    requires Full(fs, e, cx) && TrueConstant(fs, e) && CodeNot(fs, e).0.k <= cx.env.k
    ensures var (fs', e') := CodeNot(fs, e);
            Full(fs', e', Negated(cx)) && TrueConstant(fs', e')
  {
    hide EInv, Means, HalfNegated, SwapLists, InvertJump, Discharge2AnyReg, Code;
    var (fs1, e1) := DischargeVars(fs, e);
    DischargeVarsFree(fs, e, cx);
    if e1.k.VNIL? || e1.k.VFALSE? {
      HalfNegatedConstant(fs1, e1, VTRUE, cx);
      FullNegated(fs1, e1.(k := VTRUE), cx);
    } else if e1.k.VK? || e1.k.VKNUM? || e1.k.VTRUE? {
      HalfNegatedConstant(fs1, e1, VFALSE, cx);
      FullNegated(fs1, e1.(k := VFALSE), cx);
    } else if e1.k.VJMP? {
      HalfNegatedJump(fs1, e1, cx);
      InvertOk(fs1, e1, cx);
      FullNegated(InvertJump(fs1, e1.k.jump), e1, cx);
    } else {
      Discharge2AnyRegOk(fs1, e1, cx);
      var (fsr, er) := Discharge2AnyReg(fs1, e1);
      HalfNegatedReg(fsr, er, cx);
      var fsn := FreeExp(fsr, er);
      FullNegated(Code(fsn, Not(0, RegOf(er))), er.(k := VRELOCABLE(|fsn.code|)), cx);
    }
  }
}

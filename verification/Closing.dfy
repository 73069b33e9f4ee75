/** Putting the value of an expression with pending exits into a register. */
module Closing {
  import opened Values
  import opened Bytecode
  import opened CodeGen
  import opened PartialCode
  import opened Emission
  import opened Meaning

  /** A comparison whose jump joins the true list has the value false where control falls through. */
  function JumpAsFalse(e: ExpDesc): ExpDesc
    requires e.k.VJMP?
  {
    ExpDesc(VFALSE, e.t + [e.k.jump], e.f)
  }

  lemma JumpAsFalseOk(fs: FuncState, e: ExpDesc, cx: Context)
    requires EInv(fs, e, cx) && Means(fs, e, cx) && e.k.VJMP?
    ensures EInv(fs, JumpAsFalse(e), cx) && Means(fs, JumpAsFalse(e), cx)
  {
    var e' := JumpAsFalse(e);
    var core := Core(fs, e);
    var n := |core|;
    var i := fs.code[n];
    assert e'.t == e.t + [e.k.jump];
    assert forall p :: p in e'.t <==> p in e.t || p == e.k.jump;
    assert Owned(e') == Owned(e);
    CoreShape(fs, e, cx);
    ExitsInRange(core, fs.lasttarget, cx.env, cx.start, cx.r0);
    AppendRun(core, i, cx.env, cx.start, cx.r0);
    var code1 := core + [i];
    assert fs.code == code1 + [Hole];
    AppendRun(code1, Hole, cx.env, cx.start, cx.r0);
    assert Shadowed(fs.code, cx.start) == Shadowed(core, cx.start);
    var o := Run(core, cx.env, cx.start, cx.r0);
    if Arrived(fs, e, o) {
      var r := o.regs;
      CompareRun(core, i, cx.env, r);
      if cx.entry.Arrives? { ArrivedValue(fs, e, cx); } else { OuterExits(fs, e, cx); }
    } else if cx.entry.Arrives? && o.Exit? {
      var p := o.pc;
      assert Means(fs, e, cx);
      assert Run(fs.code, cx.env, cx.start, cx.r0) == o;
    }
  }

  lemma CompareRun(core: seq<Instr>, i: Instr, env: Env, r: Regs)
    requires i.Cmp?
    ensures var code1 := core + [i];
            var n := |core|;
            && Run(code1, env, n, r) ==
               (match Taken(i, env, r)
                case Fail => Error
                case Ok(true) => Exit(n + 1, r)
                case Ok(false) => Exit(n + 2, r))
            && Run(code1 + [Hole], env, n + 1, r) == Exit(n + 1, r)
  {
    var code1 := core + [i];
    var n := |core|;
    assert code1[n] == i;
    match Taken(i, env, r)
    case Fail =>
    case Ok(true) => assert Run(code1, env, n, r) == Run(code1, env, n + 1, AfterTest(i, r)) == Exit(n + 1, r);
    case Ok(false) => assert Run(code1, env, n, r) == Land(code1, env, n, n + 2, r) == Exit(n + 2, r);
  }

  // ----- the loads of false and true -----

  /** The last two instructions load false, skipping the load of true, and true. */
  predicate EndsWithLoads(code: seq<Instr>, reg: int) {
    var n := |code|;
    && n >= 2
    && code[n - 2] == LoadBool(reg, false, true)
    && code[n - 1] == LoadBool(reg, true, false)
    && !Shadowed(code, n - 2)
  }

  lemma LoadsRun(code: seq<Instr>, reg: int, env: Env, r: Regs)
    requires EndsWithLoads(code, reg) && reg >= 0
    ensures Run(code, env, |code| - 2, r) == Exit(|code|, r[reg := Bool(false)])
    ensures Run(code, env, |code| - 1, r) == Exit(|code|, r[reg := Bool(true)])
  {
    var n := |code|;
    var r0, r1 := r[reg := Bool(false)], r[reg := Bool(true)];
    assert !Shadowed(code, n);
    assert Run(code, env, n - 2, r) == Land(code, env, n - 2, n, r0) == Run(code, env, n, r0) == Exit(n, r0);
    assert Run(code, env, n - 1, r) == Run(code, env, n, r1) == Exit(n, r1);
  }

  lemma LoadValuesShape(code: seq<Instr>, lab: nat, reg: int, afterJump: bool)
    requires Shape(code, lab)
    ensures var mid := if afterJump then code else code + [Hole];
            var code' := mid + [LoadBool(reg, false, true)] + [LoadBool(reg, true, false)];
            && Shape(code', |code'|) && EndsWithLoads(code', reg)
            && Holes(code') == Holes(code) + (if afterJump then {} else {|code|})
            && SameJumps(code, code', Holes(code))
  {
    var mid := if afterJump then code else code + [Hole];
    var code' := mid + [LoadBool(reg, false, true)] + [LoadBool(reg, true, false)];
    NotInsideTest(code, lab);
    forall j: nat | j < |code'|
      ensures ShapeAt(code', |code'|, j)
    {
      if j < |code| { assert ShapeAt(code, lab, j); }
    }
    assert forall p: nat :: p in Holes(code') <==> p in Holes(code) || (!afterJump && p == |code|);
  }

  /** `fs'` is `fs` with the loads of false and true at the end. */
  predicate WithLoads(fs: FuncState, fs': FuncState, reg: int, afterJump: bool) {
    var mid := if afterJump then fs.code else fs.code + [Hole];
    && fs'.code == mid + [LoadBool(reg, false, true)] + [LoadBool(reg, true, false)]
    && fs' == fs.(code := fs'.code, jpc := fs'.jpc, lasttarget := |fs'.code|)
    && fs'.jpc == (if afterJump then [] else [|fs.code|] + fs.jpc)
  }

  lemma WithLoadsOk(fs: FuncState, fs': FuncState, reg: int, afterJump: bool, outer: set<nat>, start: nat)
    requires Inv(fs, outer) && StartOk(fs.code, fs.lasttarget, start)
    requires (afterJump ==> fs.jpc == []) && WithLoads(fs, fs', reg, afterJump)
    ensures Inv(fs', outer) && EndsWithLoads(fs'.code, reg)
    ensures |fs'.code| == |fs.code| + (if afterJump then 2 else 3)
    ensures SameJumps(fs.code, fs'.code, outer)
    ensures StartOk(fs'.code, fs'.lasttarget, start)
  {
    LoadValuesShape(fs.code, fs.lasttarget, reg, afterJump);
    assert forall i :: 0 <= i < |fs.jpc| ==> fs.jpc[i] in Elems(fs.jpc) && fs.jpc[i] in Holes(fs.code);
    assert forall p :: p in fs'.jpc <==> p in fs.jpc || (!afterJump && p == |fs.code|);
    assert Holes(fs'.code) == outer + Elems(fs'.jpc);
    assert |fs.code| !in Holes(fs.code);
  }

  /** Code ready for the loads: after a comparison's jump, or after a new jump over them. */
  lemma LoadValuesCode(fs: FuncState, reg: int, afterJump: bool)
    requires afterJump ==> fs.jpc == []
    ensures WithLoads(fs, LoadValues(fs, reg, afterJump), reg, afterJump)
    ensures GetLabel(LoadValues(fs, reg, afterJump)) == LoadValues(fs, reg, afterJump)
  {
  }

  lemma WithLoadsRun(fs: FuncState, fs': FuncState, reg: int, afterJump: bool, outer: set<nat>, env: Env, start: nat,
                     r: Regs)
    requires Inv(fs, outer) && reg >= 0 && StartOk(fs.code, fs.lasttarget, start)
    requires (afterJump ==> fs.jpc == [] && |fs.code| >= 1) && WithLoads(fs, fs', reg, afterJump)
    ensures var o := Run(fs.code, env, start, r);
            Run(fs'.code, env, start, r) ==
            if afterJump && o.Exit? && o.pc == |fs.code| then Exit(|fs'.code|, o.regs[reg := Bool(false)]) else o
  {
    LoadValuesShape(fs.code, fs.lasttarget, reg, afterJump);
    var code' := fs'.code;
    var o := Run(fs.code, env, start, r);
    ExitsInRange(fs.code, fs.lasttarget, env, start, r);
    var mid := if afterJump then fs.code else fs.code + [Hole];
    if !afterJump {
      AppendRun(fs.code, Hole, env, start, r);
      if o.Exit? { assert Run(mid, env, |fs.code|, o.regs) == Exit(|fs.code|, o.regs); }
    }
    var one := mid + [LoadBool(reg, false, true)];
    AppendRun(mid, LoadBool(reg, false, true), env, start, r);
    AppendRun(one, LoadBool(reg, true, false), env, start, r);
    if afterJump && o.Exit? && o.pc == |fs.code| {
      LoadsRun(code', reg, env, o.regs);
      var r1 := o.regs[reg := Bool(false)];
      assert Run(one, env, |mid|, o.regs) == Land(one, env, |mid|, |mid| + 2, r1) == Exit(|mid| + 2, r1);
    }
  }

  // ----- patching both lists -----

  lemma NeedValueMeaning(code: seq<Instr>, list: seq<nat>)
    ensures NeedValue(code, list) <==> exists p :: p in list && !IsValueJump(code, p)
  {
    if list != [] {
      NeedValueMeaning(code, list[1..]);
      assert list == [list[0]] + list[1..];
      assert list[0] in list;
    }
  }

  /** What an exit becomes: the carried value or the list's boolean in the register. */
  function Closed(code: seq<Instr>, p: nat, reg: int, r: Regs, truth: bool): Regs
    requires p < |code| && code[p].Hole?
  {
    if IsValueJump(code, p) then PatchedRegs(code, p, reg, r) else r[reg := Bool(truth)]
  }

  /** Destination of the jumps of one list that carry no value. */
  function LoadPosition(n: nat, loads: bool, truth: bool): int {
    if !loads then -1 else if truth then n - 1 else n - 2
  }

  predicate Closable(code: seq<Instr>, list: seq<nat>, lo: nat, reg: int, loads: bool) {
    && lo <= |code|
    && (forall p :: p in list ==> p < lo)
    && (if loads then EndsWithLoads(code, reg) && lo <= |code| - 2 else forall p :: p in list ==> IsValueJump(code, p))
  }

  function CloseList(code: seq<Instr>, list: seq<nat>, reg: int, loads: bool, truth: bool): seq<Instr> {
    PatchListAux(code, list, |code|, reg, LoadPosition(|code|, loads, truth))
  }

  lemma CloseListOk(code: seq<Instr>, lab: nat, list: seq<nat>, lo: nat, reg: int, loads: bool, truth: bool, start: nat)
    requires Shape(code, lab) && lab == |code| && PendingList(code, list) && Closable(code, list, lo, reg, loads)
    requires start <= |code| && !Shadowed(code, start)
    ensures var code' := CloseList(code, list, reg, loads, truth);
            && |code'| == |code| && Shape(code', lab) && Holes(code') == Holes(code) - Elems(list)
            && SameJumps(code, code', Holes(code) - Elems(list))
            && !Shadowed(code', start)
            && (loads ==> EndsWithLoads(code', reg))
  {
    var n := |code|;
    var d := LoadPosition(n, loads, truth);
    var code' := CloseList(code, list, reg, loads, truth);
    PatchShape(code, lab, list, n, reg, d);
    PatchListFrame(code, list, n, reg, d);
    if start > 0 { assert PatchedAt(code, list, n, d, start - 1, code'); }
    if loads {
      assert PatchedAt(code, list, n, d, n - 1, code');
      assert PatchedAt(code, list, n, d, n - 2, code');
      if n >= 3 { assert PatchedAt(code, list, n, d, n - 3, code'); }
    }
  }

  lemma CloseListRun(code: seq<Instr>, lab: nat, list: seq<nat>, lo: nat, reg: int, loads: bool, truth: bool,
                     env: Env, start: nat, r: Regs)
    requires Shape(code, lab) && PendingList(code, list) && Closable(code, list, lo, reg, loads)
    requires start <= |code| && !Shadowed(code, start) && reg >= 0
    ensures var o := Run(code, env, start, r);
            Run(CloseList(code, list, reg, loads, truth), env, start, r) ==
            if o.Exit? && o.pc in list && o.pc < |code| && code[o.pc].Hole?
            then Exit(|code|, Closed(code, o.pc, reg, o.regs, truth)) else o
  {
    var n := |code|;
    var o := Run(code, env, start, r);
    NotInsideTest(code, lab);
    PatchListRun(code, list, lo, n, reg, LoadPosition(n, loads, truth), env, start, r);
    if loads && o.Exit? {
      LoadsRun(code, reg, env, o.regs);
    }
  }

  // ----- exp2reg -----

  /** Where the value of the expression is when its jumps are about to be closed. */
  predicate ReadyToClose(fs: FuncState, e: ExpDesc, reg: int, afterJump: bool) {
    if afterJump then e.k.VFALSE? && fs.jpc == [] && |fs.code| >= 1 && HasJumps(e)
    else e.k == VNONRELOC(reg)
  }

  /** Both lists closed in code whose end is already prepared. */
  lemma CloseBothOk(fs: FuncState, e: ExpDesc, fs1: FuncState, lo: nat, reg: int, loads: bool, afterJump: bool,
                    cx: Context)
    requires EInv(fs, e, cx) && Means(fs, e, cx) && reg >= 0 && cx.except == reg
    requires ReadyToClose(fs, e, reg, afterJump) && (afterJump ==> loads)
    requires Inv(fs1, cx.outer + Owned(e)) && fs1.lasttarget == |fs1.code| && fs1.k == fs.k && fs1.nactvar == fs.nactvar
    requires SameJumps(fs.code, fs1.code, cx.outer + Owned(e))
    requires StartOk(fs1.code, fs1.lasttarget, cx.start)
    requires Closable(fs1.code, e.t, lo, reg, loads) && Closable(fs1.code, e.f, lo, reg, loads)
    requires var o := Run(fs.code, cx.env, cx.start, cx.r0);
             var o1 := Run(fs1.code, cx.env, cx.start, cx.r0);
             if !Arrived(fs, e, o) then o1 == o
             else if afterJump then o1 == Exit(|fs1.code|, o.regs[reg := Bool(false)])
             else o1.Exit? && Here(fs1, o1.pc) && o1.regs == o.regs
    ensures var fs2 := fs1.(code := CloseList(CloseList(fs1.code, e.f, reg, loads, false), e.t, reg, loads, true));
            var e2 := ExpDesc(VNONRELOC(reg), [], []);
            EInv(fs2, e2, cx) && Means(fs2, e2, cx)
  {
    hide Means, Run;
    var code := fs1.code;
    var code1 := CloseList(code, e.f, reg, loads, false);
    var code2 := CloseList(code1, e.t, reg, loads, true);
    var lab := |code|;
    assert forall p :: p in e.t ==> p in Elems(e.t);
    assert forall p :: p in e.f ==> p in Elems(e.f);
    PendingFromShape(code, lab, e.f);
    PendingFromShape(code, lab, e.t);
    CloseListOk(code, lab, e.f, lo, reg, loads, false, cx.start);
    CloseListRun(code, lab, e.f, lo, reg, loads, false, cx.env, cx.start, cx.r0);
    PendingFromShape(code1, lab, e.t);
    assert SameJumps(code, code1, Elems(e.t));
    CloseListOk(code1, lab, e.t, lo, reg, loads, true, cx.start);
    CloseListRun(code1, lab, e.t, lo, reg, loads, true, cx.env, cx.start, cx.r0);
    CloseBothInv(fs, e, fs1, code1, code2, reg, cx);
    CloseBothMeans(fs, e, fs1, code1, code2, reg, loads, afterJump, cx);
  }

  lemma CloseBothInv(fs: FuncState, e: ExpDesc, fs1: FuncState, code1: seq<Instr>, code2: seq<Instr>, reg: int,
                     cx: Context)
    requires EInv(fs, e, cx) && reg >= 0 && cx.except == reg && Owned(e) == Elems(e.t) + Elems(e.f)
    requires Inv(fs1, cx.outer + Owned(e)) && fs1.lasttarget == |fs1.code| && fs1.k == fs.k && fs1.nactvar == fs.nactvar
    requires SameJumps(fs.code, fs1.code, cx.outer + Owned(e))
    requires |code1| == |fs1.code| && Holes(code1) == Holes(fs1.code) - Elems(e.f)
    requires |code2| == |fs1.code| && Holes(code2) == Holes(code1) - Elems(e.t) && Shape(code2, |fs1.code|)
    requires SameJumps(fs1.code, code1, Holes(fs1.code) - Elems(e.f))
    requires SameJumps(code1, code2, Holes(code1) - Elems(e.t))
    requires cx.start <= |code2| && !Shadowed(code2, cx.start)
    ensures EInv(fs1.(code := code2), ExpDesc(VNONRELOC(reg), [], []), cx)
  {
    hide Shape;
    assert Holes(code2) == cx.outer + Elems(fs1.jpc);
    assert cx.outer <= Holes(code1) - Elems(e.t) && cx.outer <= Holes(fs1.code) - Elems(e.f);
  }

  lemma CloseBothMeans(fs: FuncState, e: ExpDesc, fs1: FuncState, code1: seq<Instr>, code2: seq<Instr>, reg: int,
                       loads: bool, afterJump: bool, cx: Context)
    requires EInv(fs, e, cx) && Means(fs, e, cx) && reg >= 0 && cx.except == reg
    requires ReadyToClose(fs, e, reg, afterJump)
    requires Inv(fs1, cx.outer + Owned(e))
    requires |code1| == |fs1.code| && |code2| == |fs1.code|
    requires SameJumps(fs.code, fs1.code, cx.outer + Owned(e))
    requires SameJumps(fs1.code, code1, Elems(e.t))
    requires var o := Run(fs.code, cx.env, cx.start, cx.r0);
             var o1 := Run(fs1.code, cx.env, cx.start, cx.r0);
             if !Arrived(fs, e, o) then o1 == o
             else if afterJump then o1 == Exit(|fs1.code|, o.regs[reg := Bool(false)])
             else o1.Exit? && Here(fs1, o1.pc) && o1.regs == o.regs
    requires var o1 := Run(fs1.code, cx.env, cx.start, cx.r0);
             Run(code1, cx.env, cx.start, cx.r0) ==
             if o1.Exit? && o1.pc in e.f && o1.pc < |fs1.code| && fs1.code[o1.pc].Hole?
             then Exit(|fs1.code|, Closed(fs1.code, o1.pc, reg, o1.regs, false)) else o1
    requires var o1 := Run(code1, cx.env, cx.start, cx.r0);
             Run(code2, cx.env, cx.start, cx.r0) ==
             if o1.Exit? && o1.pc in e.t && o1.pc < |code1| && code1[o1.pc].Hole?
             then Exit(|code1|, Closed(code1, o1.pc, reg, o1.regs, true)) else o1
    ensures Means(fs1.(code := code2), ExpDesc(VNONRELOC(reg), [], []), cx)
  {
    var o := Run(fs.code, cx.env, cx.start, cx.r0);
    var o1 := Run(fs1.code, cx.env, cx.start, cx.r0);
    assert forall p :: p in e.t ==> p in Elems(e.t) && p in Holes(fs.code) && p in Holes(fs1.code);
    assert forall p :: p in e.f ==> p in Elems(e.f) && p in Holes(fs.code) && p in Holes(fs1.code);
    match cx.entry
    case Elsewhere(o0) =>
      OuterExits(fs, e, cx);
    case Arrives(v, r) =>
      if Arrived(fs, e, o) {
        ArrivedValue(fs, e, cx);
      } else if o.Exit? {
        var p := o.pc;
        if p in e.f {
          assert SameJump(fs.code, fs1.code, p);
          ValueJumpControl(fs.code, p);
        } else {
          assert p in e.t && SameJump(fs.code, fs1.code, p) && SameJump(fs1.code, code1, p);
          ValueJumpControl(fs.code, p);
        }
      }
  }

  lemma EInvFacts(fs: FuncState, e: ExpDesc, cx: Context)
    requires EInv(fs, e, cx)
    ensures Inv(fs, cx.outer + Owned(e)) && (IsPlain(e.k) ==> StartOk(fs.code, fs.lasttarget, cx.start))
    ensures forall p :: p in e.t || p in e.f ==> p in cx.outer + Owned(e) && p < |fs.code|
  {
    assert forall p :: p in e.t || p in e.f ==> p in cx.outer + Owned(e) && p in Holes(fs.code);
  }

  lemma CloseWithLoads(fs: FuncState, e: ExpDesc, fs1: FuncState, reg: int, afterJump: bool, cx: Context)
    requires EInv(fs, e, cx) && Means(fs, e, cx) && reg >= 0 && cx.except == reg
    requires ReadyToClose(fs, e, reg, afterJump) && WithLoads(fs, fs1, reg, afterJump)
    ensures var fs2 := fs1.(code := CloseList(CloseList(fs1.code, e.f, reg, true, false), e.t, reg, true, true));
            var e2 := ExpDesc(VNONRELOC(reg), [], []);
            EInv(fs2, e2, cx) && Means(fs2, e2, cx)
  {
    hide CloseList, Run;
    EInvFacts(fs, e, cx);
    var outer := cx.outer + Owned(e);
    WithLoadsOk(fs, fs1, reg, afterJump, outer, cx.start);
    WithLoadsRun(fs, fs1, reg, afterJump, outer, cx.env, cx.start, cx.r0);
    CloseBothOk(fs, e, fs1, |fs.code|, reg, true, afterJump, cx);
  }

  lemma CloseWithoutLoads(fs: FuncState, e: ExpDesc, fs1: FuncState, reg: int, cx: Context)
    requires EInv(fs, e, cx) && Means(fs, e, cx) && reg >= 0 && cx.except == reg
    requires ReadyToClose(fs, e, reg, false) && fs1 == GetLabel(fs)
    requires !NeedValue(fs.code, e.t) && !NeedValue(fs.code, e.f)
    ensures var fs2 := fs1.(code := CloseList(CloseList(fs1.code, e.f, reg, false, false), e.t, reg, false, true));
            var e2 := ExpDesc(VNONRELOC(reg), [], []);
            EInv(fs2, e2, cx) && Means(fs2, e2, cx)
  {
    hide CloseList, Run;
    EInvFacts(fs, e, cx);
    LabelOk(fs, cx.outer + Owned(e), cx.start);
    NeedValueMeaning(fs.code, e.t);
    NeedValueMeaning(fs.code, e.f);
    CloseBothOk(fs, e, fs1, |fs.code|, reg, false, false, cx);
  }

  lemma CloseJumpsOk(fs: FuncState, e: ExpDesc, reg: int, afterJump: bool, cx: Context)
    requires EInv(fs, e, cx) && Means(fs, e, cx) && reg >= 0 && cx.except == reg
    requires ReadyToClose(fs, e, reg, afterJump) && (afterJump ==> NeedValue(fs.code, e.t))
    ensures var fs' := CloseJumps(fs, e.t, e.f, reg, afterJump);
            var e' := ExpDesc(VNONRELOC(reg), [], []);
            EInv(fs', e', cx) && Means(fs', e', cx)
  {
    hide EInv, Means, Run, PatchListAux, LoadValues, WithLoads;
    if HasJumps(e) {
      if NeedValue(fs.code, e.t) || NeedValue(fs.code, e.f) {
        var fs1 := LoadValues(fs, reg, afterJump);
        LoadValuesCode(fs, reg, afterJump);
        CloseWithLoads(fs, e, GetLabel(fs1), reg, afterJump, cx);
      } else {
        CloseWithoutLoads(fs, e, GetLabel(fs), reg, cx);
      }
    }
  }

  lemma LabelOk(fs: FuncState, outer: set<nat>, start: nat)
    requires Inv(fs, outer) && StartOk(fs.code, fs.lasttarget, start)
    ensures Inv(GetLabel(fs), outer) && StartOk(GetLabel(fs).code, |fs.code|, start)
  {
    forall j: nat | j < |fs.code|
      ensures ShapeAt(fs.code, |fs.code|, j)
    {
      assert ShapeAt(fs.code, fs.lasttarget, j);
    }
  }

  /** `exp2reg`: afterwards the value is in the register and nothing is pending. */
  lemma Exp2RegOk(fs: FuncState, e: ExpDesc, reg: int, cx: Context)
    requires EInv(fs, e, cx) && Means(fs, e, cx) && reg >= 0 && cx.except == -1
    requires Exp2Reg(fs, e, reg).0.k <= cx.env.k
    ensures var (fs', e') := Exp2Reg(fs, e, reg);
            EInv(fs', e', Target(cx, reg)) && Means(fs', e', Target(cx, reg))
            && e' == ExpDesc(VNONRELOC(reg), [], [])
  {
    hide CloseJumps, Discharge2Reg;
    var (fs1, e1) := Discharge2Reg(fs, e, reg);
    Discharge2RegOk(fs, e, reg, cx);
    if e1.k.VJMP? {
      JumpAsFalseOk(fs1, e1, Target(cx, reg));
      var p := e1.k.jump;
      var e2 := JumpAsFalse(e1);
      NeedValueMeaning(fs1.code, e2.t);
      assert p in e2.t && !IsValueJump(fs1.code, p);
      CloseJumpsOk(fs1, e2, reg, true, Target(cx, reg));
    } else {
      CloseJumpsOk(fs1, e1, reg, false, Target(cx, reg));
    }
  }
}

/** The code generator as it works: instructions rewritten in place, jump lists threaded through
    the offsets of pending jumps. Every method refines the function of the same name in `CodeGen`. */
module FuncStates {
  import opened Numbers
  import opened Values
  import opened Bytecode
  import G = CodeGen
  import opened PartialCode
  import opened Emission
  import opened Meaning
  import opened Closing
  import opened Operands
  import opened Conditions
  import opened Negation
  import opened Operators
  import opened Correctness
  import opened Statements
  import opened JumpLists

  /** An expression descriptor whose lists are heads of threaded lists. */
  datatype Exp = Exp(k: G.Kind, t: int, f: int)

  ghost predicate Describes(code: seq<Instr>, e: Exp, d: G.ExpDesc) {
    && e.k == d.k && Threaded(code, e.t, d.t) && Threaded(code, e.f, d.f)
    && (d.k.VJMP? ==> Threaded(code, d.k.jump, [d.k.jump]))
  }

  /** Distinct pending jumps to here, and others that are pending too. */
  ghost predicate Listed(s: G.FuncState, outer: set<nat>) {
    && AllHoles(s.code, s.jpc) && NoDup(s.jpc)
    && forall p :: p in outer ==> p < |s.code| && s.code[p].Hole? && p !in s.jpc
  }

  /** The two lists only; the kind may be out of date after a test. */
  ghost predicate Links(code: seq<Instr>, e: Exp, d: G.ExpDesc) {
    Threaded(code, e.t, d.t) && Threaded(code, e.f, d.f)
  }

  predicate HasJumps(e: Exp) { e.t != e.f }

  ghost predicate FreeOk(s: G.FuncState, d: G.ExpDesc) {
    d.k.VNONRELOC? && d.k.reg >= s.nactvar ==> d.k.reg == s.freereg - 1
  }

  /** A first operand stays where it is, becomes a constant, or goes to the next register. */
  ghost predicate LoadedOperand(s: G.FuncState, s': G.FuncState, d: G.ExpDesc, d': G.ExpDesc, o: RK) {
    && (match d'.k case VK(i) => o == Const(i) case VNONRELOC(r) => o == Reg(r) case _ => false)
    && (d'.k == d.k || d'.k.VK? || (d'.k == G.VNONRELOC(s.freereg) && s'.freereg == s.freereg + 1))
    && (d'.k == d.k || d'.k.VK? ==> s'.freereg == s.freereg)
  }

  class FuncState {
    var code: seq<Instr>
    var jpc: int
    var lasttarget: nat
    var freereg: int
    var nactvar: nat
    var k: seq<Value>
    ghost var spec: G.FuncState

    ghost predicate Valid()
      reads this
    {
      && Refines(code, spec.code)
      && Threaded(code, jpc, spec.jpc)
      && lasttarget == spec.lasttarget && freereg == spec.freereg && nactvar == spec.nactvar && k == spec.k
    }

    // ----- jump lists -----

    method FixJump(pc: nat, dest: int)
      requires pc < |code|
      modifies this`code
      ensures code == G.FixJump(old(code), pc, dest)
    {
      code := code[pc := Jmp(dest - (pc + 1))];
    }

    /** `luaK_concat`: finds the last element of the first list and links it to the second. */
    method Concat(l1: int, l2: int, ghost s1: seq<nat>, ghost s2: seq<nat>) returns (l: int)
      requires Threaded(code, l1, s1) && Threaded(code, l2, s2)
      requires NoDup(s1) && Elems(s1) !! Elems(s2)
      modifies this`code
      ensures Threaded(code, l, s1 + s2)
      ensures |code| == |old(code)|
      ensures forall i :: 0 <= i < |code| && i !in s1 ==> code[i] == old(code)[i]
      ensures forall i :: 0 <= i < |code| && old(code)[i].Jmp? ==> code[i].Jmp?
      ensures forall i :: 0 <= i < |code| && !old(code)[i].Jmp? ==> code[i] == old(code)[i]
    {
      ThreadedHead(code, l1, s1);
      ThreadedHead(code, l2, s2);
      if l2 == NO_JUMP {
        assert s1 + s2 == s1;
        return l1;
      }
      if l1 == NO_JUMP {
        assert s1 + s2 == s2;
        return l2;
      }
      var list: nat := l1;
      ghost var i := 0;
      ThreadedSuffix(code, l1, s1, 0);
      var next := Link(code, list);
      while next != NO_JUMP
        invariant code == old(code)
        invariant i < |s1| && list == s1[i] && list < |code| && code[list].Jmp? && next == Link(code, list)
        invariant next == if i + 1 < |s1| then s1[i + 1] else NO_JUMP
        decreases |s1| - i
      {
        i := i + 1;
        ThreadedSuffix(code, l1, s1, i);
        list := next;
        next := Link(code, list);
      }
      ThreadedJoin(code, l1, s1, l2, s2);
      assert list in s1;
      FixJump(list, l2);
      return l1;
    }

    method NeedValue(list: int, ghost s: seq<nat>) returns (need: bool)
      requires Threaded(code, list, s)
      ensures need == G.NeedValue(code, s)
    {
      var l := list;
      ghost var i := 0;
      assert s[0..] == s;
      ThreadedHead(code, l, s);
      while l != NO_JUMP
        invariant i <= |s| && Threaded(code, l, s[i..])
        invariant l == NO_JUMP <==> i == |s|
        invariant i < |s| ==> l == s[i] && 0 <= l < |code| && code[l].Jmp?
        invariant G.NeedValue(code, s) == G.NeedValue(code, s[i..])
        decreases |s| - i
      {
        assert s[i..][1..] == s[i + 1..];
        var c := G.Control(code, l);
        if !code[c].TestSet? {
          return true;
        }
        l := Link(code, l);
        i := i + 1;
        ThreadedHead(code, l, s[i..]);
      }
      return false;
    }

    method PatchTestReg(node: nat, reg: int) returns (patched: bool)
      requires node < |code|
      modifies this`code
      ensures code == G.PatchTestReg(old(code), node, reg)
      ensures patched == G.IsValueJump(old(code), node)
    {
      var c := G.Control(code, node);
      var i := code[c];
      if !i.TestSet? {
        return false;
      }
      if reg != NO_REG && reg != i.b {
        code := code[c := TestSet(reg, i.b, i.c)];
      } else {
        code := code[c := Test(i.b, i.c)];
      }
      return true;
    }

    method RemoveValues(list: int, ghost s: seq<nat>)
      requires Threaded(code, list, s)
      modifies this`code
      ensures code == G.RemoveValues(old(code), s)
    {
      var l := list;
      ghost var i := 0;
      assert s[0..] == s;
      ThreadedHead(code, l, s);
      while l != NO_JUMP
        invariant i <= |s| && Threaded(code, l, s[i..]) && |code| == |old(code)|
        invariant l == NO_JUMP <==> i == |s|
        invariant i < |s| ==> l == s[i] && 0 <= l < |code| && code[l].Jmp?
        invariant G.RemoveValues(old(code), s) == G.RemoveValues(code, s[i..])
        decreases |s| - i
      {
        assert s[i..][1..] == s[i + 1..];
        var next := Link(code, l);
        ghost var before := code;
        var _ := PatchTestReg(l, NO_REG);
        JumpsKept(before, next, s[i + 1..], code);
        l := next;
        i := i + 1;
        ThreadedHead(code, l, s[i..]);
      }
    }

    method PatchListAux(list: int, vtarget: int, reg: int, dtarget: int, ghost s: seq<nat>)
      requires Threaded(code, list, s) && NoDup(s)
      modifies this`code
      ensures code == G.PatchListAux(old(code), s, vtarget, reg, dtarget)
    {
      var l := list;
      ghost var i := 0;
      assert s[0..] == s;
      ThreadedHead(code, l, s);
      while l != NO_JUMP
        invariant i <= |s| && Threaded(code, l, s[i..]) && |code| == |old(code)|
        invariant l == NO_JUMP <==> i == |s|
        invariant i < |s| ==> l == s[i] && 0 <= l < |code| && code[l].Jmp?
        invariant G.PatchListAux(old(code), s, vtarget, reg, dtarget) ==
            G.PatchListAux(code, s[i..], vtarget, reg, dtarget)
        decreases |s| - i
      {
        assert s[i..][1..] == s[i + 1..];
        var next := Link(code, l);
        ghost var before := code;
        var valued := PatchTestReg(l, reg);
        JumpsKept(before, next, s[i + 1..], code);
        ghost var middle := code;
        FixJump(l, if valued then vtarget else dtarget);
        assert l !in s[i + 1..];
        JumpsKeptExcept(middle, next, s[i + 1..], l, code);
        l := next;
        i := i + 1;
        ThreadedHead(code, l, s[i..]);
      }
    }

    // ----- emitting -----

    method DischargeJpc(ghost outer: set<nat>)
      requires Valid() && Listed(spec, outer)
      modifies this
      ensures Valid() && spec == G.DischargeJpc(old(spec)) && Listed(spec, outer)
      ensures SameAt(old(code), code, outer)
    {
      RefinesPatchList(code, spec.code, spec.jpc, |code|, NO_REG, |code|);
      PatchListAux(jpc, |code|, NO_REG, |code|, spec.jpc);
      jpc := NO_JUMP;
      spec := G.DischargeJpc(spec);
    }

    /** `luaK_code`: returns the position of the new instruction. */
    method Code(i: Instr, ghost outer: set<nat>) returns (pc: nat)
      requires Valid() && Listed(spec, outer) && !i.Hole?
      modifies this
      ensures Valid() && spec == G.Code(old(spec), i) && Listed(spec, outer)
      ensures pc == |old(code)| && |code| == pc + 1 && jpc == NO_JUMP
      ensures SameAt(old(code), code, outer)
    {
      ghost var s0 := spec;
      DischargeJpc(outer);
      pc := |code|;
      code := code + [i];
      spec := G.Code(s0, i);
    }

    /** `luaK_jump`: a pending jump whose list takes over the jumps pending to here. */
    method Jump(ghost outer: set<nat>) returns (j: int)
      requires Valid() && Listed(spec, outer)
      modifies this
      ensures Valid() && spec == G.Jump(old(spec)).0 && Threaded(code, j, G.Jump(old(spec)).1)
      ensures Listed(spec, outer) && jpc == NO_JUMP && (old(jpc) == NO_JUMP ==> j == |old(code)|)
      ensures |code| == |old(code)| + 1 && SameAt(old(code), code, outer)
    {
      ghost var s0 := spec;
      ghost var c0 := code;
      ThreadedHead(code, jpc, spec.jpc);
      var saved := jpc;
      jpc := NO_JUMP;
      var pc := |code|;
      code := code + [Jmp(NO_JUMP)];
      spec := G.Jump(s0).0;
      ThreadedFrame(c0, code, saved, s0.jpc);
      assert Threaded(code, pc, [pc]) by { assert [pc][1..] == []; }
      assert Elems([pc]) !! Elems(s0.jpc) by { assert forall p :: p in Elems(s0.jpc) ==> p < pc; }
      j := Concat(pc, saved, [pc], s0.jpc);
    }

    /** `condjump` */
    method CondJump(i: Instr, ghost outer: set<nat>) returns (j: int)
      requires Valid() && Listed(spec, outer) && IsTest(i)
      modifies this
      ensures Valid() && spec == G.CondJump(old(spec), i).0 && Listed(spec, outer)
      ensures Threaded(code, j, G.CondJump(old(spec), i).1)
      ensures |code| == |old(code)| + 2 && j == |old(code)| + 1 && jpc == NO_JUMP
      ensures SameAt(old(code), code, outer)
    {
      var _ := Code(i, outer);
      j := Jump(outer);
    }

    method PatchToHere(list: int, ghost s: seq<nat>, ghost outer: set<nat>)
      requires Valid() && Listed(spec, outer + Elems(s)) && outer !! Elems(s) && Threaded(code, list, s)
      modifies this
      ensures Valid() && spec == G.PatchToHere(old(spec), s)
      ensures |code| == |old(code)| && SameAt(old(code), code, outer)
    {
      ghost var s0 := spec;
      lasttarget := |code|;
      jpc := Concat(jpc, list, spec.jpc, s);
      spec := G.PatchToHere(s0, s);
      assert Refines(code, spec.code);
    }

    // ----- registers and constants -----

    method ReserveRegs(n: nat)
      requires Valid()
      modifies this
      ensures Valid() && spec == G.ReserveRegs(old(spec), n) && code == old(code)
    {
      freereg := freereg + n;
      spec := G.ReserveRegs(spec, n);
    }

    /** Registers are freed in the opposite order of their reservation. */
    method FreeReg(reg: int)
      requires Valid() && (reg >= nactvar ==> reg == freereg - 1)
      modifies this
      ensures Valid() && spec == G.FreeReg(old(spec), reg) && code == old(code)
    {
      if reg >= nactvar { freereg := freereg - 1; }
      spec := G.FreeReg(spec, reg);
    }

    method FreeExp(e: Exp, ghost d: G.ExpDesc)
      requires Valid() && e.k == d.k && (e.k.VNONRELOC? && e.k.reg >= nactvar ==> e.k.reg == freereg - 1)
      modifies this
      ensures Valid() && spec == G.FreeExp(old(spec), d) && code == old(code)
    {
      if e.k.VNONRELOC? { FreeReg(e.k.reg); }
    }

    method AddK(v: Value) returns (i: nat)
      requires Valid()
      modifies this
      ensures Valid() && (spec, i) == G.AddK(old(spec), v) && code == old(code)
    {
      i := G.IndexOf(k, v);
      if i == |k| { k := k + [v]; }
      spec := G.AddK(spec, v).0;
    }

    method CodeNil(from: int, n: nat, ghost outer: set<nat>)
      requires Valid() && Listed(spec, outer) && n > 0
      modifies this
      ensures Valid() && spec == G.CodeNil(old(spec), from, n)
      ensures SameAt(old(code), code, outer)
    {
      var last := from + n - 1;
      if |code| > lasttarget {
        var p := code[|code| - 1];
        if p.LoadNil? {
          var pl := p.a + p.n;
          if p.a <= from <= pl + 1 || from <= p.a <= last + 1 {
            var from' := if p.a < from then p.a else from;
            var last' := if pl > last then pl else last;
            code := code[|code| - 1 := LoadNil(from', last' - from')];
            spec := G.CodeNil(spec, from, n);
            JumpsKept(old(code), jpc, spec.jpc, code);
            return;
          }
        }
      }
      var _ := Code(LoadNil(from, n - 1), outer);
    }

    // ----- descriptors -----

    /** The descriptor means its expression, in the generator's state and in its threaded form. */
    ghost predicate Holds(e: Exp, d: G.ExpDesc, cx: Context)
      reads this
    {
      Valid() && Describes(code, e, d) && EInv(spec, d, cx) && Means(spec, d, cx)
    }

    method DischargeVars(e: Exp, ghost d: G.ExpDesc, ghost cx: Context) returns (e': Exp, ghost d': G.ExpDesc)
      requires Holds(e, d, cx) && cx.except == -1
      modifies this
      ensures (spec, d') == G.DischargeVars(old(spec), d) && Holds(e', d', cx)
      ensures !e.k.VLOCAL? && !e.k.VUPVAL? ==> e' == e && d' == d
      ensures SameAt(old(code), code, cx.outer)
    {
      DischargeVarsOk(spec, d, cx);
      ghost var s0 := spec;
      ghost var c0 := code;
      d' := G.DischargeVars(s0, d).1;
      match e.k {
        case VLOCAL(r) => e' := e.(k := G.VNONRELOC(r));
        case VUPVAL(u) =>
          EInvListed(spec, d, cx);
          var pc := Code(GetUpval(0, u), cx.outer + Owned(d));
          DescribesFrame(c0, code, e, d, cx.outer);
          e' := e.(k := G.VRELOCABLE(pc));
        case _ => e' := e;
      }
    }

    method LoadInto(e: Exp, i: Instr, ghost d: G.ExpDesc, ghost cx: Context)
      requires Valid() && Describes(code, e, d) && EInv(spec, d, cx) && IsStraight(i)
      modifies this
      ensures Valid() && Describes(code, e, d) && spec == G.Code(old(spec), i)
      ensures SameAt(old(code), code, cx.outer)
    {
      ghost var c0 := code;
      EInvListed(spec, d, cx);
      var _ := Code(i, cx.outer + Owned(d));
      DescribesFrame(c0, code, e, d, cx.outer);
    }

    method SetReloc(e: Exp, reg: int, ghost d: G.ExpDesc, ghost cx: Context)
      requires Valid() && Describes(code, e, d) && EInv(spec, d, cx) && e.k.VRELOCABLE?
      modifies this
      ensures Valid() && Describes(code, e, d)
      ensures e.k.pc < |old(spec).code|
      ensures spec == old(spec).(code := old(spec).code[e.k.pc := G.SetA(old(spec).code[e.k.pc], reg)])
      ensures SameAt(old(code), code, cx.outer)
    {
      RelocFacts(spec, d, cx);
      var pc := e.k.pc;
      SetALoads(code[pc], reg);
      ghost var c0 := code;
      code := code[pc := G.SetA(code[pc], reg)];
      spec := spec.(code := spec.code[pc := G.SetA(spec.code[pc], reg)]);
      RelocFrame(c0, code, e, d, pc);
    }

    /** `discharge2reg` */
    method Discharge2Reg(e: Exp, reg: int, ghost d: G.ExpDesc, ghost cx: Context) returns (e': Exp, ghost d': G.ExpDesc)
      requires Holds(e, d, cx) && cx.except == -1 && reg >= 0
      requires G.Discharge2Reg(spec, d, reg).0.k <= cx.env.k
      modifies this
      ensures (spec, d') == G.Discharge2Reg(old(spec), d, reg) && Holds(e', d', Target(cx, reg))
      ensures SameAt(old(code), code, cx.outer)
      ensures e.k.VJMP? ==> e' == e && d' == d
      ensures !e.k.VJMP? ==> d'.k == G.VNONRELOC(reg)
    {
      hide Means, EInv, G.CodeNil, G.DischargeVars, G.AddK, Refines, Threaded, Owned, Links;
      ghost var s0 := spec;
      ghost var c0 := code;
      Discharge2RegOk(spec, d, reg, cx);
      ghost var d1;
      var e1;
      e1, d1 := DischargeVars(e, d, cx);
      ghost var c1 := code;
      d' := G.Discharge2Reg(s0, d, reg).1;
      if e1.k.VJMP? {
        return e1, d';
      }
      e' := e1.(k := G.VNONRELOC(reg));
      match e1.k {
        case VNIL =>
          EInvListed(spec, d1, cx);
          CodeNil(reg, 1, cx.outer + Owned(d1));
          DescribesFrame(c1, code, e1, d1, cx.outer);
        case VFALSE => LoadInto(e1, LoadBool(reg, false, false), d1, cx);
        case VTRUE => LoadInto(e1, LoadBool(reg, true, false), d1, cx);
        case VK(i) => LoadInto(e1, LoadK(reg, i), d1, cx);
        case VKNUM(n) =>
          var i := AddK(Num(n));
          AddKOk(G.DischargeVars(s0, d).0, Num(n), cx.env);
          MoreConstants(G.DischargeVars(s0, d).0, spec.k, d1, cx);
          LoadInto(e1, LoadK(reg, i), d1, cx);
        case VRELOCABLE(pc) =>
          SetReloc(e1, reg, d1, cx);
        case VNONRELOC(r) =>
          if r != reg { LoadInto(e1, Move(reg, r), d1, cx); }
        case _ =>
      }
    }

    method CodeLabel(reg: int, v: bool, skip: bool, ghost outer: set<nat>) returns (pc: nat)
      requires Valid() && Listed(spec, outer)
      modifies this
      ensures Valid() && spec == G.CodeLabel(old(spec), reg, v, skip) && Listed(spec, outer)
      ensures pc == |old(code)| && |code| == pc + 1 && jpc == NO_JUMP
      ensures SameAt(old(code), code, outer)
    {
      lasttarget := |code|;
      spec := G.GetLabel(spec);
      pc := Code(LoadBool(reg, v, skip), outer);
    }

    /** The loads for jumps without a value; returns their positions. */
    method LoadValues(reg: int, afterJump: bool, ghost outer: set<nat>) returns (p_f: nat, p_t: nat)
      requires Valid() && Listed(spec, outer) && (afterJump ==> jpc == NO_JUMP)
      modifies this
      ensures Valid() && spec == G.LoadValues(old(spec), reg, afterJump)
      ensures afterJump ==> old(spec).jpc == []
      ensures p_f == |code| - 2 && p_t == |code| - 1
      ensures SameAt(old(code), code, outer)
    {
      hide Refines;
      ghost var s0 := spec;
      ghost var c0 := code;
      ThreadedHead(code, jpc, spec.jpc);
      var fj := NO_JUMP;
      ghost var list: seq<nat> := [];
      if !afterJump {
        list := G.Jump(s0).1;
        fj := Jump(outer);
      }
      JumpListed(s0, afterJump, outer);
      ghost var c1 := code;
      ghost var outer1 := outer + Elems(list);
      p_f := CodeLabel(reg, false, true, outer1);
      p_t := CodeLabel(reg, true, false, outer1);
      ThreadedFrame(c1, code, fj, list);
      PatchToHere(fj, list, outer);
    }

    /** `exp2reg` */
    method Exp2Reg(e: Exp, reg: int, ghost d: G.ExpDesc, ghost cx: Context) returns (e': Exp, ghost d': G.ExpDesc)
      requires Holds(e, d, cx) && cx.except == -1 && reg >= 0
      requires G.Exp2Reg(spec, d, reg).0.k <= cx.env.k
      modifies this
      ensures (spec, d') == G.Exp2Reg(old(spec), d, reg) && Holds(e', d', Target(cx, reg))
      ensures SameAt(old(code), code, cx.outer)
    {
      hide Means, EInv, G.Discharge2Reg, G.CloseJumps, Refines, Listed;
      ghost var s0 := spec;
      Exp2RegOk(spec, d, reg, cx);
      d' := G.Exp2Reg(s0, d, reg).1;
      var e1;
      ghost var d1;
      e1, d1 := Discharge2Reg(e, reg, d, cx);
      var t := e1.t;
      ghost var t1 := d1.t;
      EInvListed(spec, d1, Target(cx, reg));
      OwnedFacts(spec, d1, Target(cx, reg));
      if e1.k.VJMP? {
        ghost var c1 := code;
        t := Concat(e1.t, e1.k.jump, d1.t, [d1.k.jump]);
        t1 := d1.t + [d1.k.jump];
        JoinKept(c1, code, e1, d1, spec, cx.outer);
      }
      assert cx.outer + Owned(d1) == cx.outer + (Elems(t1) + Elems(d1.f));
      CloseJumps(t, e1.f, t1, d1.f, reg, e1.k.VJMP?, cx.outer);
      e' := Exp(G.VNONRELOC(reg), NO_JUMP, NO_JUMP);
    }

    /** The second half of `exp2reg`. */
    method CloseJumps(t: int, f: int, ghost st: seq<nat>, ghost sf: seq<nat>, reg: int, afterJump: bool,
                      ghost outer: set<nat>)
      requires Valid() && Threaded(code, t, st) && Threaded(code, f, sf)
      requires NoDup(st) && NoDup(sf) && Elems(st) !! Elems(sf) && outer !! Elems(st) + Elems(sf)
      requires Listed(spec, outer + (Elems(st) + Elems(sf))) && (afterJump ==> jpc == NO_JUMP)
      modifies this
      ensures Valid() && spec == G.CloseJumps(old(spec), st, sf, reg, afterJump)
      ensures SameAt(old(code), code, outer)
    {
      hide G.LoadValues, G.NeedValue, G.PatchListAux, Threaded, NoDup, AllHoles;
      ghost var s0 := spec;
      ghost var c0 := code;
      ThreadedHead(code, t, st);
      ThreadedHead(code, f, sf);
      if t == f {
        assert st == [] && sf == [] by { if st != [] && sf != [] { HeadsDiffer(st, sf); } }
        ListedSame(spec, code, outer + (Elems(st) + Elems(sf)), outer);
        return;
      }
      ListsAreHoles(spec, outer, st, sf);
      RefinesNeedValue(code, spec.code, st);
      RefinesNeedValue(code, spec.code, sf);
      var need := NeedValue(t, st);
      if !need { need := NeedValue(f, sf); }
      var p_f: int, p_t: int := NO_JUMP, NO_JUMP;
      ghost var all := outer + (Elems(st) + Elems(sf));
      if need {
        p_f, p_t := LoadValues(reg, afterJump, all);
        ListsKept(c0, code, t, f, st, sf, outer);
      }
      lasttarget := |code|;
      spec := G.GetLabel(spec);
      var final := |code|;
      assert Listed(spec, all) by { if need { LoadsListed(s0, reg, afterJump, all, c0, code, spec); } }
      CloseBoth(t, f, st, sf, reg, final, p_f, p_t, outer);
    }

    method CloseBoth(t: int, f: int, ghost st: seq<nat>, ghost sf: seq<nat>, reg: int, final: int, p_f: int, p_t: int,
                     ghost outer: set<nat>)
      requires Valid() && Threaded(code, t, st) && Threaded(code, f, sf)
      requires NoDup(st) && NoDup(sf) && Elems(st) !! Elems(sf) && outer !! Elems(st) + Elems(sf)
      requires Listed(spec, outer + (Elems(st) + Elems(sf)))
      modifies this
      ensures Valid() && jpc == old(jpc)
      ensures spec ==
          old(spec).(code := G.PatchListAux(G.PatchListAux(old(spec).code, sf, final, reg, p_f), st, final, reg, p_t))
      ensures SameAt(old(code), code, outer)
    {
      hide G.PatchListAux, NoDup, Listed;
      ListsAreHoles(spec, outer, st, sf);
      ghost var c0 := code;
      ghost var a0 := spec.code;
      RefinesPatchList(code, a0, sf, final, reg, p_f);
      PatchListAux(f, final, reg, p_f, sf);
      ghost var a1 := G.PatchListAux(a0, sf, final, reg, p_f);
      assert SameAt(c0, code, Elems(st));
      ThreadedFrame(c0, code, t, st);
      ghost var c1 := code;
      RefinesPatchList(code, a1, st, final, reg, p_t);
      PatchListAux(t, final, reg, p_t, st);
      spec := spec.(code := G.PatchListAux(a1, st, final, reg, p_t));
      assert SameAt(c0, code, Elems(spec.jpc));
      ThreadedFrame(c0, code, jpc, spec.jpc);
    }

    // ----- operands -----

    ghost predicate HoldsFull(e: Exp, d: G.ExpDesc, cx: Context)
      reads this
    {
      Valid() && Describes(code, e, d) && Full(spec, d, cx)
    }

    /** `luaK_exp2nextreg` */
    method Exp2NextReg(e: Exp, ghost d: G.ExpDesc, ghost cx: Context) returns (e': Exp, ghost d': G.ExpDesc)
      requires HoldsFull(e, d, cx) && G.Exp2NextReg(spec, d).0.k <= cx.env.k
      modifies this
      ensures (spec, d') == G.Exp2NextReg(old(spec), d) && HoldsFull(e', d', cx)
      ensures SameAt(old(code), code, cx.outer)
    {
      hide Means, EInv, G.Exp2Reg, Refines, Threaded;
      Exp2NextRegOk(spec, d, cx);
      DischargeVarsFree(spec, d, cx);
      NactvarLow(spec, d, cx);
      var e1;
      ghost var d1;
      e1, d1 := DischargeVars(e, d, cx);
      NactvarLow(spec, d1, cx);
      ghost var s1 := spec;
      FreeExp(e1, d1);
      ReserveRegs(1);
      ChangeFree(s1, spec.freereg, d1, cx);
      e', d' := Exp2Reg(e1, freereg - 1, d1, cx);
    }

    /** `luaK_exp2anyreg` */
    method Exp2AnyReg(e: Exp, ghost d: G.ExpDesc, ghost cx: Context) returns (e': Exp, ghost d': G.ExpDesc)
      requires HoldsFull(e, d, cx) && G.Exp2AnyReg(spec, d).0.k <= cx.env.k
      modifies this
      ensures (spec, d') == G.Exp2AnyReg(old(spec), d) && HoldsFull(e', d', cx)
      ensures SameAt(old(code), code, cx.outer)
    {
      hide Means, EInv, G.Exp2Reg, G.Exp2NextReg, Refines;
      Exp2AnyRegOk(spec, d, cx);
      DischargeVarsFree(spec, d, cx);
      var e1;
      ghost var d1;
      e1, d1 := DischargeVars(e, d, cx);
      NactvarLow(spec, d1, cx);
      HeadsAgree(code, e1, d1, spec, cx);
      if e1.k.VNONRELOC? {
        if !HasJumps(e1) { return e1, d1; }
        if e1.k.reg >= nactvar {
          e', d' := Exp2Reg(e1, e1.k.reg, d1, cx);
          return;
        }
      }
      e', d' := Exp2NextReg(e1, d1, cx);
    }

    /** `luaK_exp2val` */
    method Exp2Val(e: Exp, ghost d: G.ExpDesc, ghost cx: Context) returns (e': Exp, ghost d': G.ExpDesc)
      requires HoldsFull(e, d, cx) && G.Exp2Val(spec, d).0.k <= cx.env.k
      modifies this
      ensures (spec, d') == G.Exp2Val(old(spec), d) && HoldsFull(e', d', cx)
      ensures SameAt(old(code), code, cx.outer)
    {
      hide Means, EInv, G.Exp2AnyReg, Refines;
      Exp2ValOk(spec, d, cx);
      HeadsAgree(code, e, d, spec, cx);
      if HasJumps(e) {
        e', d' := Exp2AnyReg(e, d, cx);
      } else {
        e', d' := DischargeVars(e, d, cx);
      }
    }

    method RegOperand(e: Exp, ghost d: G.ExpDesc, ghost cx: Context) returns (e': Exp, o: RK, ghost d': G.ExpDesc)
      requires HoldsFull(e, d, cx) && G.Exp2AnyReg(spec, d).0.k <= cx.env.k
      modifies this
      ensures (spec, d', o) == G.RegOperand(G.Exp2AnyReg(old(spec), d)) && HoldsFull(e', d', cx)
      ensures SameAt(old(code), code, cx.outer)
    {
      hide Full, G.Exp2AnyReg;
      Exp2AnyRegOk(spec, d, cx);
      e', d' := Exp2AnyReg(e, d, cx);
      o := Reg(e'.k.reg);
    }

    /** `luaK_exp2RK` */
    method Exp2RK(e: Exp, ghost d: G.ExpDesc, ghost cx: Context) returns (e': Exp, o: RK, ghost d': G.ExpDesc)
      requires HoldsFull(e, d, cx) && G.Exp2RK(spec, d).0.k <= cx.env.k
      modifies this
      ensures (spec, d', o) == G.Exp2RK(old(spec), d) && HoldsFull(e', d', cx)
      ensures SameAt(old(code), code, cx.outer)
    {
      hide Full, G.Exp2Val, G.Exp2AnyReg;
      ghost var c0 := code;
      ghost var s0 := spec;
      Exp2RKOk(spec, d, cx);
      Exp2ValOk(spec, d, cx);
      var e1;
      ghost var d1;
      e1, d1 := Exp2Val(e, d, cx);
      var k := e1.k;
      if (k.VNIL? || k.VTRUE? || k.VFALSE?) && |this.k| <= G.MAXINDEXRK {
        var i := AddK(if k.VNIL? then Nil else Bool(k.VTRUE?));
        return e1.(k := G.VK(i)), Const(i), d1.(k := G.VK(i));
      }
      if k.VKNUM? {
        var i := AddK(Num(k.nval));
        UseConstant(G.Exp2Val(s0, d).0, d1, Num(k.nval), cx);
        e1 := e1.(k := G.VK(i));
        d1 := d1.(k := G.VK(i));
      }
      if e1.k.VK? && e1.k.info <= G.MAXINDEXRK {
        return e1, Const(e1.k.info), d1;
      }
      e', o, d' := RegOperand(e1, d1, cx);
    }

    // ----- conditions -----

    method InvertJump(e: Exp, ghost d: G.ExpDesc, ghost cx: Context)
      requires Valid() && Describes(code, e, d) && Full(spec, d, cx) && e.k.VJMP?
      modifies this
      ensures Valid() && spec == G.InvertJump(old(spec), d.k.jump)
      ensures |code| == |old(code)| && SameAt(old(code), code, cx.outer + Owned(d))
      ensures Describes(code, e, d)
    {
      InvertOk(spec, d, cx);
      EInvListed(spec, d, cx);
      ghost var c0 := code;
      var c := G.Control(code, e.k.jump);
      code := code[c := code[c].(cond := !code[c].cond)];
      spec := G.InvertJump(spec, d.k.jump);
      DescribesFrame(c0, code, e, d, cx.outer);
    }

    method Discharge2AnyReg(e: Exp, ghost d: G.ExpDesc, ghost cx: Context) returns (e': Exp, ghost d': G.ExpDesc)
      requires HoldsFull(e, d, cx) && !e.k.VJMP? && G.Discharge2AnyReg(spec, d).0.k <= cx.env.k
      modifies this
      ensures (spec, d') == G.Discharge2AnyReg(old(spec), d) && HoldsFull(e', d', cx)
      ensures e'.k.VNONRELOC? && (e'.k.reg >= nactvar ==> e'.k.reg == freereg - 1)
      ensures d'.t == d.t && d'.f == d.f
      ensures SameAt(old(code), code, cx.outer)
    {
      hide Means, EInv, G.Discharge2Reg;
      ghost var s0 := spec;
      Discharge2AnyRegOk(spec, d, cx);
      NactvarLow(spec, d, cx);
      if e.k.VNONRELOC? {
        FullListed(spec, d, cx);
        return e, d;
      }
      ReserveRegs(1);
      ChangeFree(s0, spec.freereg, d, cx);
      e', d' := Discharge2Reg(e, freereg - 1, d, cx);
    }

    /** `jumponcond`: returns the new pending jump; a negation just emitted is removed. */
    method JumpOnCond(e: Exp, cond: bool, ghost d: G.ExpDesc, ghost cx: Context)
      returns (j: int, e': Exp, ghost d': G.ExpDesc)
      requires HoldsFull(e, d, cx) && !e.k.VJMP? && G.JumpOnCond(spec, d, cond).0.k <= cx.env.k
      modifies this
      ensures Valid() && spec == G.JumpOnCond(old(spec), d, cond).0
      ensures Threaded(code, j, G.JumpOnCond(old(spec), d, cond).1)
      ensures d'.t == d.t && d'.f == d.f && Links(code, e', d')
      ensures SameAt(old(code), code, cx.outer)
    {
      hide Full, G.CondJump, G.Discharge2Reg, G.Discharge2AnyReg, Refines;
      ghost var c0 := code;
      ghost var s0 := spec;
      var negation := false;
      if e.k.VRELOCABLE? { negation := IsNegation(e, d, cx); }
      if negation {
        var i := code[e.k.pc];
        DropLast(e, d, cx);
        ghost var c1 := code;
        j := CondJump(Test(i.b, !cond), cx.outer + Owned(d));
        DescribesFrame(c1, code, e, d, cx.outer);
        return j, e, d;
      }
      e', d' := Discharge2AnyReg(e, d, cx);
      FullListed(spec, d', cx);
      ghost var s1 := spec;
      ghost var c1 := code;
      FreeExp(e', d');
      j := CondJump(TestSet(NO_REG, e'.k.reg, cond), cx.outer + Owned(d'));
      DescribesFrame(c1, code, e', d', cx.outer);
    }

    method IsNegation(e: Exp, ghost d: G.ExpDesc, ghost cx: Context) returns (b: bool)
      requires HoldsFull(e, d, cx) && e.k.VRELOCABLE?
      ensures e.k.pc + 1 == |code| == |spec.code| && code[e.k.pc] == spec.code[e.k.pc]
      ensures b == spec.code[e.k.pc].Not?
    {
      RelocFacts(spec, d, cx);
      b := code[e.k.pc].Not?;
    }

    /** `fs->pc--` */
    method DropLast(e: Exp, ghost d: G.ExpDesc, ghost cx: Context)
      requires HoldsFull(e, d, cx) && e.k.VRELOCABLE?
      modifies this
      ensures Valid() && Describes(code, e, d) && Listed(spec, cx.outer + Owned(d))
      ensures |old(code)| >= 1 && |old(spec).code| == |old(code)| && code == old(code)[..|old(code)| - 1]
      ensures spec == old(spec).(code := old(spec).code[..|old(spec).code| - 1])
      ensures SameAt(old(code), code, cx.outer)
    {
      RelocFacts(spec, d, cx);
      EInvListed(spec, d, cx);
      ghost var c0 := code;
      code := code[..|code| - 1];
      spec := spec.(code := spec.code[..|spec.code| - 1]);
      assert SameAt(c0, code, cx.outer + Owned(d));
      DescribesFrame(c0, code, e, d, cx.outer);
    }

    /** Adds a jump to the exits on one side and patches the other side to here. */
    method JoinAndPatch(exits: int, j: int, back: int, ghost s: seq<nat>, ghost sj: seq<nat>, ghost sb: seq<nat>,
                        ghost truth: bool, ghost cx: Context) returns (l: int)
      requires Valid() && Threaded(code, exits, s) && Threaded(code, j, sj) && Threaded(code, back, sb)
      requires ContextInv(spec, if truth then sb else s + sj, if truth then s + sj else sb, cx)
      requires NoDup(s) && Elems(s) !! Elems(sj)
      modifies this
      ensures Valid() && spec == G.PatchToHere(old(spec), sb) && Threaded(code, l, s + sj)
      ensures SameAt(old(code), code, cx.outer)
    {
      ghost var c0 := code;
      ghost var s0 := spec;
      JoinFacts(spec, s, sj, sb, truth, cx);
      l := Concat(exits, j, s, sj);
      assert Refines(code, spec.code);
      ThreadedFrame(c0, code, back, sb);
      ThreadedFrame(c0, code, jpc, spec.jpc);
      ghost var c1 := code;
      PatchToHere(back, sb, cx.outer + Elems(s + sj));
      ThreadedFrame(c1, code, l, s + sj);
    }

    /** `luaK_goiftrue` */
    method GoIfTrue(e: Exp, ghost d: G.ExpDesc, ghost cx: Context) returns (e': Exp, ghost d': G.ExpDesc)
      requires HoldsFull(e, d, cx) && TrueConstant(spec, d) && G.GoIfTrue(spec, d).0.k <= cx.env.k
      modifies this
      ensures (spec, d') == G.GoIfTrue(old(spec), d) && Valid() && Links(code, e', d')
      ensures Forked(spec, [], d'.f, cx, true)
      ensures SameAt(old(code), code, cx.outer)
    {
      hide Means, EInv, G.InvertJump, G.JumpOnCond, Forks, Refines;
      GoIfTrueOk(spec, d, cx);
      d' := G.GoIfTrue(spec, d).1;
      DischargeVarsFree(spec, d, cx);
      var e1;
      ghost var d1;
      e1, d1 := DischargeVars(e, d, cx);
      var j := NO_JUMP;
      ghost var sj: seq<nat> := [];
      if e1.k.VJMP? {
        InvertForks(spec, d1, cx);
        InvertJump(e1, d1, cx);
        j := e1.k.jump;
        sj := [d1.k.jump];
      } else if e1.k.VK? || e1.k.VKNUM? || e1.k.VTRUE? {
        ConstantContext(spec, d1, cx);
        assert d1.f + [] == d1.f;
      } else {
        sj := G.JumpOnCond(spec, d1, false).1;
        JumpOnCondOk(spec, d1, false, cx);
        j, e1, d1 := JumpOnCond(e1, false, d1, cx);
      }
      SplitLists(d1.t, d1.f, sj, spec, cx, true);
      var l := JoinAndPatch(e1.f, j, e1.t, d1.f, sj, d1.t, true, cx);
      e' := Exp(e1.k, NO_JUMP, l);
    }

    /** `luaK_goiffalse` */
    method GoIfFalse(e: Exp, ghost d: G.ExpDesc, ghost cx: Context) returns (e': Exp, ghost d': G.ExpDesc)
      requires HoldsFull(e, d, cx) && TrueConstant(spec, d) && G.GoIfFalse(spec, d).0.k <= cx.env.k
      modifies this
      ensures (spec, d') == G.GoIfFalse(old(spec), d) && Valid() && Links(code, e', d')
      ensures Forked(spec, d'.t, [], cx, false)
      ensures SameAt(old(code), code, cx.outer)
    {
      hide Means, EInv, G.JumpOnCond, Forks, Refines;
      GoIfFalseOk(spec, d, cx);
      d' := G.GoIfFalse(spec, d).1;
      DischargeVarsFree(spec, d, cx);
      var e1;
      ghost var d1;
      e1, d1 := DischargeVars(e, d, cx);
      var j := NO_JUMP;
      ghost var sj: seq<nat> := [];
      if e1.k.VJMP? {
        JumpForks(spec, d1, cx);
        j := e1.k.jump;
        sj := [d1.k.jump];
      } else if e1.k.VNIL? || e1.k.VFALSE? {
        ConstantContext(spec, d1, cx);
        assert d1.t + [] == d1.t;
      } else {
        sj := G.JumpOnCond(spec, d1, true).1;
        JumpOnCondOk(spec, d1, true, cx);
        j, e1, d1 := JumpOnCond(e1, true, d1, cx);
      }
      SplitLists(d1.f, d1.t, sj, spec, cx, false);
      var l := JoinAndPatch(e1.t, j, e1.f, d1.t, sj, d1.f, false, cx);
      e' := Exp(e1.k, l, NO_JUMP);
    }

    method SwapLists(e: Exp, ghost d: G.ExpDesc, ghost outer: set<nat>) returns (e': Exp, ghost d': G.ExpDesc)
      requires Valid() && Describes(code, e, d) && Listed(spec, outer + Owned(d))
      modifies this
      ensures Valid() && (spec, d') == G.SwapLists(old(spec), d) && Describes(code, e', d')
      ensures SameAt(old(code), code, outer)
    {
      hide G.RemoveValues, Threaded;
      d' := d.(t := d.f, f := d.t);
      e' := e.(t := e.f, f := e.t);
      ghost var c0 := code;
      ghost var a0 := spec.code;
      OwnedHoles(a0, d, outer);
      RefinesRemove(c0, a0, d'.f);
      RemoveValues(e'.f, d'.f);
      ghost var c1 := code;
      ghost var a1 := G.RemoveValues(a0, d'.f);
      HolesStay(a0, a1, d, outer, spec.jpc);
      ThreadedFrame(c0, c1, e'.t, d'.t);
      RefinesRemove(c1, a1, d'.t);
      RemoveValues(e'.t, d'.t);
      assert SameAt(c0, code, outer + Owned(d)) by {
        assert forall p :: p in outer + Owned(d) ==> p in outer || p in Owned(d);
      }
      DescribesFrame(c0, code, e, d, outer);
      ThreadedFrame(c0, code, jpc, spec.jpc);
      spec := G.SwapLists(spec, d).0;
      assert Owned(d') == Owned(d);
    }

    /** `codenot` */
    method CodeNot(e: Exp, ghost d: G.ExpDesc, ghost cx: Context) returns (e': Exp, ghost d': G.ExpDesc)
      requires HoldsFull(e, d, cx) && TrueConstant(spec, d) && G.CodeNot(spec, d).0.k <= cx.env.k
      modifies this
      ensures (spec, d') == G.CodeNot(old(spec), d) && HoldsFull(e', d', Negated(cx))
      ensures SameAt(old(code), code, cx.outer)
    {
      hide Means, EInv, G.InvertJump, G.Discharge2AnyReg, G.SwapLists, G.Code;
      CodeNotOk(spec, d, cx);
      DischargeVarsFree(spec, d, cx);
      var e1;
      ghost var d1;
      e1, d1 := DischargeVars(e, d, cx);
      FullListed(spec, d1, cx);
      if e1.k.VNIL? || e1.k.VFALSE? {
        e1, d1 := e1.(k := G.VTRUE), d1.(k := G.VTRUE);
      } else if e1.k.VK? || e1.k.VKNUM? || e1.k.VTRUE? {
        e1, d1 := e1.(k := G.VFALSE), d1.(k := G.VFALSE);
      } else if e1.k.VJMP? {
        InvertOk(spec, d1, cx);
        InvertJump(e1, d1, cx);
        InvListed(spec, cx.outer + Owned(d1));
      } else {
        e1, d1 := Discharge2AnyReg(e1, d1, cx);
        FullListed(spec, d1, cx);
        FreeExp(e1, d1);
        ghost var c1 := code;
        var pc := Code(Not(0, e1.k.reg), cx.outer + Owned(d1));
        DescribesFrame(c1, code, e1, d1, cx.outer);
        e1, d1 := e1.(k := G.VRELOCABLE(pc)), d1.(k := G.VRELOCABLE(pc));
      }
      e', d' := SwapLists(e1, d1, cx.outer);
    }

    // ----- operators -----

    /** `luaK_exp2RK` for a first operand: `luaK_infix` left it an operand already or a numeral. */
    method FirstToRK(e: Exp, ghost d: G.ExpDesc, ghost d2: G.ExpDesc, ghost o2: RK, ghost cx: Context, ghost base0: int)
      returns (e': Exp, o: RK, ghost d': G.ExpDesc)
      requires Valid() && Describes(code, e, d) && Full(spec, d2, cx) && IsOperand(spec, d2, o2)
      requires FirstOperand(spec, d, base0, cx.base) && G.Exp2RK(spec, d).0.k <= cx.env.k
      modifies this
      ensures Valid() && (spec, d', o) == G.Exp2RK(old(spec), d) && e'.k == d'.k && SameAt(old(code), code, cx.outer)
      ensures spec.nactvar == old(spec).nactvar && LoadedOperand(old(spec), spec, d, d', o)
    {
      hide Means, EInv, G.Exp2NextReg;
      FullListed(spec, d2, cx);
      NactvarLow(spec, d2, cx);
      match e.k {
        case VNONRELOC(r) => return e, Reg(r), d;
        case VK(i) => return e, Const(i), d;
        case VKNUM(n) =>
          ghost var s0 := spec;
          var i := AddK(Num(n));
          ghost var dk := G.ExpDesc(G.VK(i), [], []);
          assert d.(k := G.VK(i)) == dk;
          if i <= G.MAXINDEXRK { return e.(k := G.VK(i)), Const(i), dk; }
          FullMore(s0, spec, d2, Num(n), cx);
          LoadNumber(spec, i, Num(n), d2, cx);
          ghost var cx1 := Next(spec, cx.env, cx.start, cx.r0, cx.outer, Ok(Num(n)));
          Exp2NextRegOk(spec, dk, cx1);
          ghost var d1;
          var e1;
          e1, d1 := Exp2NextReg(Exp(G.VK(i), e.t, e.f), dk, cx1);
          return e1, Reg(e1.k.reg), d1;
      }
    }

    /** Registers are freed in the reverse of the order of their allocation. */
    method FreeBoth(e1: Exp, e2: Exp, ghost d1: G.ExpDesc, ghost d2: G.ExpDesc, o1: RK, o2: RK)
      requires Valid() && e1.k == d1.k && e2.k == d2.k && 0 <= nactvar
      requires G.OperandNumber(o1) > G.OperandNumber(o2) ==>
                 FreeOk(spec, d1) && FreeOk(G.FreeExp(spec, d1), d2)
      requires G.OperandNumber(o1) <= G.OperandNumber(o2) ==>
                 FreeOk(spec, d2) && FreeOk(G.FreeExp(spec, d2), d1)
      modifies this
      ensures Valid() && code == old(code) && jpc == old(jpc)
      ensures spec == if G.OperandNumber(o1) > G.OperandNumber(o2) then G.FreeExp(G.FreeExp(old(spec), d1), d2)
                      else G.FreeExp(G.FreeExp(old(spec), d2), d1)
    {
      if G.OperandNumber(o1) > G.OperandNumber(o2) {
        FreeExp(e1, d1);
        FreeExp(e2, d2);
      } else {
        FreeExp(e2, d2);
        FreeExp(e1, d1);
      }
    }

    /** `codearith` */
    method CodeArith(op: ArithOp, e1: Exp, e2: Exp, ghost d1: G.ExpDesc, ghost d2: G.ExpDesc, ghost cx: Context,
                     ghost base0: int)
      returns (e': Exp, ghost d': G.ExpDesc)
      requires HoldsFull(e2, d2, cx) && Describes(code, e1, d1) && FirstOperand(spec, d1, base0, cx.base)
      requires G.CodeArith(spec, op, d1, d2).0.k <= cx.env.k
      modifies this
      ensures (spec, d') == G.CodeArith(old(spec), op, d1, d2) && Valid() && Describes(code, e', d')
      ensures SameAt(old(code), code, cx.outer)
    {
      hide Means, EInv, G.Exp2RK, G.Code, Next, ArithNum;
      d' := G.CodeArith(spec, op, d1, d2).1;
      HeadsAgree(code, e2, d2, spec, cx);
      NoLists(code, e1, d1);
      FullListed(spec, d2, cx);
      ghost var s0 := spec;
      if e1.k.VKNUM? && e2.k.VKNUM? && !HasJumps(e2) && !((op.Div? || op.Mod?) && e2.k.nval == ZERO) {
        return e1.(k := G.VKNUM(ArithNum(op, e1.k.nval, e2.k.nval))), d';
      }
      assert !G.Folds(op, d1, d2);
      Exp2RKOk(spec, d2, cx);
      PrefixK(G.Exp2RK(spec, d2).0, G.Exp2RK(G.Exp2RK(spec, d2).0, d1).0, cx);
      ghost var c2: G.ExpDesc;
      var x2, o2;
      x2, o2, c2 := Exp2RK(e2, d2, cx);
      FullRegs(spec, c2, cx);
      assert FirstOperand(spec, d1, base0, cx.base);
      FirstToRKDesc(spec, d1, c2, o2, cx, base0);
      ghost var s2 := spec;
      ghost var c1: G.ExpDesc;
      var x1, o1;
      assert Describes(code, e1, d1);
      x1, o1, c1 := FirstToRK(e1, d1, c2, o2, cx, base0);
      FreeOrder(s2, spec, d1, c1, c2, o1, o2, cx, base0);
      FreeBoth(x1, x2, c1, c2, o1, o2);
      FreedListed(s2, d1, c2, o2, cx, base0, spec);
      var pc := Code(Arith(op, 0, o1, o2), cx.outer);
      e' := Exp(G.VRELOCABLE(pc), NO_JUMP, NO_JUMP);
    }

    /** `codecomp` */
    method CodeComp(op: CmpOp, cond: bool, e1: Exp, e2: Exp, ghost d1: G.ExpDesc, ghost d2: G.ExpDesc,
                    ghost cx: Context, ghost base0: int)
      returns (e': Exp, ghost d': G.ExpDesc)
      requires HoldsFull(e2, d2, cx) && Describes(code, e1, d1) && FirstOperand(spec, d1, base0, cx.base)
      requires !e1.k.VKNUM?
      requires G.CodeComp(spec, op, cond, d1, d2).0.k <= cx.env.k
      modifies this
      ensures (spec, d') == G.CodeComp(old(spec), op, cond, d1, d2) && Valid() && Describes(code, e', d')
      ensures SameAt(old(code), code, cx.outer)
    {
      hide Means, EInv, G.Exp2AnyReg, G.Exp2Val, G.SmallConstant, G.CondJump, G.Exp2RK, Both, Next, Refines;
      d' := G.CodeComp(spec, op, cond, d1, d2).1;
      NoLists(code, e1, d1);
      FullListed(spec, d2, cx);
      ghost var s0 := spec;
      FirstInPlace(spec, d1, base0, cx.base);
      var o1 := if e1.k.VK? then Const(e1.k.info) else Reg(e1.k.reg);
      Exp2RKOk(spec, d2, cx);
      ghost var c2: G.ExpDesc;
      var x2, o2;
      x2, o2, c2 := Exp2RK(e2, d2, cx);
      FullRegs(spec, c2, cx);
      FirstStays(s0, spec, d1, cx, base0);
      ghost var s2 := spec;
      FreedBoth(spec, d1, c2, base0, cx.base);
      BothInPlace(spec, d1, c2, o2, cx, base0, base0);
      FreeExp(x2, c2);
      FreeExp(e1, d1);
      BothListed(spec, o1, o2, d1, cx, base0);
      var i := if !cond && op != Eq then Cmp(op, true, o2, o1) else Cmp(op, cond, o1, o2);
      ghost var s3 := spec;
      CondJumpList(s3, i);
      var j := CondJump(i, cx.outer);
      e' := Exp(G.VJMP(j), NO_JUMP, NO_JUMP);
    }

    /** `luaK_prefix` for minus and length */
    method PrefixOp(op: G.UnOp, e: Exp, ghost d: G.ExpDesc, ghost cx: Context) returns (e': Exp, ghost d': G.ExpDesc)
      requires HoldsFull(e, d, cx) && !op.OPR_NOT? && G.Prefix(spec, op, d).0.k <= cx.env.k
      modifies this
      ensures (spec, d') == G.Prefix(old(spec), op, d) && Valid() && Describes(code, e', d')
      ensures SameAt(old(code), code, cx.outer)
    {
      hide Means, EInv, G.Exp2AnyReg, G.Code;
      HeadsAgree(code, e, d, spec, cx);
      FullListed(spec, d, cx);
      if op.OPR_MINUS? && e.k.VKNUM? && !HasJumps(e) {
        return e.(k := G.VKNUM(NumNeg(e.k.nval))), d.(k := G.VKNUM(NumNeg(e.k.nval)));
      }
      Exp2AnyRegOk(spec, d, cx);
      var e1;
      ghost var d1;
      e1, d1 := Exp2AnyReg(e, d, cx);
      FullListed(spec, d1, cx);
      NoOwned(d1, cx.outer);
      NactvarLow(spec, d1, cx);
      FreeExp(e1, d1);
      var pc := Code(G.UnaryInstr(op, e1.k.reg), cx.outer);
      e' := Exp(G.VRELOCABLE(pc), NO_JUMP, NO_JUMP);
      d' := d1.(k := G.VRELOCABLE(pc));
    }

    method Prefix(op: G.UnOp, e: Exp, ghost d: G.ExpDesc, ghost cx: Context) returns (e': Exp, ghost d': G.ExpDesc)
      requires HoldsFull(e, d, cx) && TrueConstant(spec, d) && G.Prefix(spec, op, d).0.k <= cx.env.k
      modifies this
      ensures (spec, d') == G.Prefix(old(spec), op, d) && Valid() && Describes(code, e', d')
      ensures SameAt(old(code), code, cx.outer)
    {
      if op.OPR_NOT? {
        hide Full, G.CodeNot;
        e', d' := CodeNot(e, d, cx);
      } else {
        e', d' := PrefixOp(op, e, d, cx);
      }
    }

    /** `luaK_infix` for operators other than `and` and `or` */
    method InfixOp(op: G.BinOp, e: Exp, ghost d: G.ExpDesc, ghost cx: Context) returns (e': Exp, ghost d': G.ExpDesc)
      requires HoldsFull(e, d, cx) && !op.OPR_AND? && !op.OPR_OR? && G.Infix(spec, op, d).0.k <= cx.env.k
      modifies this
      ensures (spec, d') == G.Infix(old(spec), op, d) && HoldsFull(e', d', cx)
      ensures SameAt(old(code), code, cx.outer)
    {
      hide Means, EInv, G.Exp2RK;
      HeadsAgree(code, e, d, spec, cx);
      if op.OPR_ARITH? && e.k.VKNUM? && !HasJumps(e) {
        FullListed(spec, d, cx);
        return e, d;
      }
      var o;
      e', o, d' := Exp2RK(e, d, cx);
    }

    /** `luaK_posfix` for operators other than `and` and `or` */
    method PosfixOp(op: G.BinOp, e1: Exp, e2: Exp, ghost d1: G.ExpDesc, ghost d2: G.ExpDesc, ghost cx: Context,
                    ghost base0: int)
      returns (e': Exp, ghost d': G.ExpDesc)
      requires HoldsFull(e2, d2, cx) && Describes(code, e1, d1) && FirstOperand(spec, d1, base0, cx.base)
      requires !op.OPR_AND? && !op.OPR_OR? && (e1.k.VKNUM? ==> op.OPR_ARITH?)
      requires G.Posfix(spec, op, d1, d2).0.k <= cx.env.k
      modifies this
      ensures (spec, d') == G.Posfix(old(spec), op, d1, d2) && Valid() && Describes(code, e', d')
      ensures SameAt(old(code), code, cx.outer)
    {
      hide Full, G.CodeArith, G.CodeComp;
      match op {
        case OPR_ARITH(a) => e', d' := CodeArith(a, e1, e2, d1, d2, cx, base0);
        case OPR_EQ => e', d' := CodeComp(Eq, true, e1, e2, d1, d2, cx, base0);
        case OPR_LT => e', d' := CodeComp(Lt, true, e1, e2, d1, d2, cx, base0);
        case OPR_LE => e', d' := CodeComp(Le, true, e1, e2, d1, d2, cx, base0);
        case OPR_NE => e', d' := CodeComp(Eq, false, e1, e2, d1, d2, cx, base0);
        case OPR_GT => e', d' := CodeComp(Lt, false, e1, e2, d1, d2, cx, base0);
        case OPR_GE => e', d' := CodeComp(Le, false, e1, e2, d1, d2, cx, base0);
      }
    }

    /** `luaK_posfix` for `and` and `or`: the exits of the first operand join those of the second. */
    method PosfixTest(truth: bool, list: int, e2: Exp, ghost s: seq<nat>, ghost d2: G.ExpDesc, ghost cx: Context,
                      ghost outer: set<nat>)
      returns (e': Exp, ghost d': G.ExpDesc)
      requires HoldsFull(e2, d2, cx) && Threaded(code, list, s)
      requires cx.outer == outer + Elems(s) && outer !! Elems(s)
      modifies this
      ensures spec == G.DischargeVars(old(spec), d2).0 && d' == Joined(G.DischargeVars(old(spec), d2).1, s, truth)
      ensures Valid() && Describes(code, e', d')
      ensures SameAt(old(code), code, outer)
    {
      hide Means, EInv, G.Code, G.DischargeVars, Refines, Describes, Threaded, Apart, Joined;
      DischargeVarsFree(spec, d2, cx);
      ghost var c0 := code;
      var e1;
      ghost var d1;
      e1, d1 := DischargeVars(e2, d2, cx);
      ThreadedFrame(c0, code, list, s);
      ghost var c1 := code;
      FullListed(spec, d1, cx);
      JoinSeparate(spec, d1, s, cx, outer);
      d' := Joined(d1, s, truth);
      JoinReady(code, e1, d1, s, truth, spec, outer);
      var l: int;
      if truth {
        l := Concat(e1.f, list, d1.f, s);
        e' := e1.(f := l);
      } else {
        l := Concat(e1.t, list, d1.t, s);
        e' := e1.(t := l);
      }
      JoinDone(c1, code, e1, d1, l, s, truth, spec, jpc, outer);
    }

    // ----- expressions -----

    /** The calls that `subexpr` makes for an expression. Wherever a run of the code so far arrives
        here, afterwards the descriptor has the value of the expression. */
    method CompileExp(e: G.Expr, ghost env: Env, ghost start: nat, ghost r0: Regs, ghost outer: set<nat>)
      returns (x: Exp, ghost d: G.ExpDesc)
      requires Valid() && Between(spec, outer, start) && Run(spec.code, env, start, r0) != Stuck
      requires LocalsActive(e, nactvar) && G.Compile(spec, e).0.k <= env.k
      modifies this
      ensures (spec, d) == G.Compile(old(spec), e) && Valid() && Describes(code, x, d)
      ensures Full(spec, d, Entered(old(spec), e, env, start, r0, outer)) && TrueConstant(spec, d)
      ensures SameAt(old(code), code, outer)
      decreases e, 1
    {
      hide Full, Run, Inv, G.Compile, G.Prefix, Entered, KindValue, StartOk, LocalsActive, TrueConstant;
      CompileOk(spec, e, env, start, r0, outer);
      if IsLeaf(e) {
        x, d := CompileLeaf(e, env.k, outer, start);
      } else if e.EUn? {
        ghost var s0 := spec;
        UnaryParts(spec, e, e.uop, e.e, nactvar, env);
        var x1;
        ghost var d1;
        x1, d1 := CompileExp(e.e, env, start, r0, outer);
        x, d := Prefix(e.uop, x1, d1, Entered(s0, e.e, env, start, r0, outer));
      } else if e.bop.OPR_AND? || e.bop.OPR_OR? {
        x, d := CompileTest(e, e.bop.OPR_AND?, e.l, e.r, env, start, r0, outer);
      } else {
        x, d := CompileBin(e, e.bop, e.l, e.r, env, start, r0, outer);
      }
    }

    /** `simpleexp` and `singlevar` */
    method CompileLeaf(e: G.Expr, ghost k: seq<Value>, ghost outer: set<nat>, ghost start: nat)
      returns (x: Exp, ghost d: G.ExpDesc)
      requires Valid() && Between(spec, outer, start) && IsLeaf(e)
      modifies this
      ensures (spec, d) == G.Compile(old(spec), e) && Valid() && Describes(code, x, d)
      ensures SameAt(old(code), code, outer)
    {
      hide Inv, StartOk, G.AddK;
      InvListed(spec, outer);
      match e {
        case ENil => return Exp(G.VNIL, NO_JUMP, NO_JUMP), G.ExpDesc(G.VNIL, [], []);
        case ETrue => return Exp(G.VTRUE, NO_JUMP, NO_JUMP), G.ExpDesc(G.VTRUE, [], []);
        case EFalse => return Exp(G.VFALSE, NO_JUMP, NO_JUMP), G.ExpDesc(G.VFALSE, [], []);
        case ENum(n) => return Exp(G.VKNUM(n), NO_JUMP, NO_JUMP), G.ExpDesc(G.VKNUM(n), [], []);
        case EStr(str) =>
          var i := AddK(Str(str));
          return Exp(G.VK(i), NO_JUMP, NO_JUMP), G.ExpDesc(G.VK(i), [], []);
        case ELocal(r) => return Exp(G.VLOCAL(r), NO_JUMP, NO_JUMP), G.ExpDesc(G.VLOCAL(r), [], []);
        case EUpval(u) => return Exp(G.VUPVAL(u), NO_JUMP, NO_JUMP), G.ExpDesc(G.VUPVAL(u), [], []);
      }
    }

    method CompileBin(ghost e: G.Expr, op: G.BinOp, l: G.Expr, r: G.Expr, ghost env: Env, ghost start: nat,
                      ghost r0: Regs, ghost outer: set<nat>)
      returns (x: Exp, ghost d: G.ExpDesc)
      requires Valid() && Between(spec, outer, start) && Run(spec.code, env, start, r0) != Stuck
      requires e == G.EBin(op, l, r) && !op.OPR_AND? && !op.OPR_OR?
      requires LocalsActive(e, nactvar) && G.Compile(spec, e).0.k <= env.k
      modifies this
      ensures (spec, d) == G.Compile(old(spec), e) && Valid() && Describes(code, x, d)
      ensures SameAt(old(code), code, outer)
      decreases e, 0
    {
      hide Full, Run, Inv, G.Compile, G.Infix, G.Posfix, Entered, KindValue, StartOk, FirstOperand, LocalsActive;
      hide Describes, TrueConstant;
      ghost var s0 := spec;
      BinParts(s0, e, op, l, r, nactvar, env);
      ghost var cx := Entered(spec, e, env, start, r0, outer);
      ghost var d1, d2, d3;
      var x1, x2, x3;
      x1, d1 := CompileExp(l, env, start, r0, outer);
      OperandCase(s0, op, l, r, spec, d1, cx);
      x2, d2 := InfixOp(op, x1, d1, Entered(s0, l, env, start, r0, outer));
      ghost var s2 := spec;
      ghost var c2 := code;
      x3, d3 := CompileExp(r, env, start, r0, outer);
      PlainDescribes(c2, code, x2, d2, s2, s0.freereg, s2.freereg);
      ghost var cxr := Entered(s2, r, env, start, r0, outer);
      FirstStays(s2, spec, d2, cxr, s0.freereg);
      x, d := PosfixOp(op, x2, x3, d2, d3, cxr, s0.freereg);
    }

    method CompileTest(ghost e: G.Expr, truth: bool, l: G.Expr, r: G.Expr, ghost env: Env, ghost start: nat,
                       ghost r0: Regs, ghost outer: set<nat>)
      returns (x: Exp, ghost d: G.ExpDesc)
      requires Valid() && Between(spec, outer, start) && Run(spec.code, env, start, r0) != Stuck
      requires e == G.EBin(TestOp(truth), l, r)
      requires LocalsActive(e, nactvar) && G.Compile(spec, e).0.k <= env.k
      modifies this
      ensures (spec, d) == G.Compile(old(spec), e) && Valid() && Describes(code, x, d)
      ensures SameAt(old(code), code, outer)
      decreases e, 0
    {
      hide Full, Run, Inv, G.Compile, G.Posfix, G.GoIfTrue, G.GoIfFalse, G.DischargeVars, Entered, KindValue;
      hide StartOk, Forked, LocalsActive, TrueConstant;
      ghost var s0 := spec;
      BinParts(s0, e, TestOp(truth), l, r, nactvar, env);
      ghost var cx := Entered(spec, e, env, start, r0, outer);
      ghost var d1, d2, d3;
      var x1, x2, x3;
      x1, d1 := CompileExp(l, env, start, r0, outer);
      TestCase(s0, truth, l, r, spec, d1, cx);
      ghost var cxl := Entered(s0, l, env, start, r0, outer);
      if truth {
        x2, d2 := GoIfTrue(x1, d1, cxl);
      } else {
        x2, d2 := GoIfFalse(x1, d1, cxl);
      }
      ghost var s2 := spec;
      ghost var c2 := code;
      ghost var list := TestList(d2, truth);
      var head := if truth then x2.f else x2.t;
      TestSeparate(s0, s2, list, truth, l, r, cx);
      x3, d3 := CompileExp(r, env, start, r0, outer + Elems(list));
      ThreadedFrame(c2, code, head, list);
      ghost var cxr := Entered(s2, r, env, start, r0, outer + Elems(list));
      TestPosfix(spec, truth, d2, d3);
      x, d := PosfixTest(truth, head, x3, list, d3, cxr, outer);
    }

    /** The value of a new local goes to the next register. */
    method AssignLocal(e: G.Expr, ghost env: Env, ghost start: nat, ghost r0: Regs)
      requires Valid() && Between(spec, {}, start) && Run(spec.code, env, start, r0) != Stuck
      requires LocalsActive(e, nactvar) && CompileLocal(spec, e).k <= env.k
      modifies this
      ensures Valid() && spec == CompileLocal(old(spec), e)
    {
      hide Full, Run, Inv, G.Compile, G.Exp2NextReg, Entered, StartOk;
      ghost var s0 := spec;
      var x;
      ghost var d;
      x, d := CompileExp(e, env, start, r0, {});
      x, d := Exp2NextReg(x, d, Entered(s0, e, env, start, r0, {}));
    }

    /** `luaK_storevar` to an active local */
    method StoreLocal(e: G.Expr, reg: nat, ghost env: Env, ghost start: nat, ghost r0: Regs)
      requires Valid() && Between(spec, {}, start) && Run(spec.code, env, start, r0) != Stuck
      requires LocalsActive(e, nactvar) && reg < nactvar && CompileStore(spec, e, reg).k <= env.k
      modifies this
      ensures Valid() && spec == CompileStore(old(spec), e, reg)
    {
      hide Means, EInv, Run, Inv, G.Compile, G.Exp2Reg, Entered, StartOk;
      ghost var s0 := spec;
      var x;
      ghost var d;
      x, d := CompileExp(e, env, start, r0, {});
      ghost var cx := Entered(s0, e, env, start, r0, {});
      ghost var s1 := spec;
      NactvarLow(spec, d, cx);
      FreeExp(x, d);
      ChangeFree(s1, spec.freereg, d, cx);
      x, d := Exp2Reg(x, reg, d, cx);
    }

    /** `localstat` and `restassign` for one variable and one value */
    method Statement(s: Stmt, ghost env: Env, ghost start: nat, ghost r0: Regs)
      requires Valid() && AtStatement(spec, start) && Run(spec.code, env, start, r0) != Stuck
      requires Scoped([s], nactvar) && CompileStmt(spec, s).k <= env.k
      modifies this
      ensures Valid() && spec == CompileStmt(old(spec), s)
    {
      hide Between, Run, CompileLocal, CompileStore, LocalsActive;
      match s {
        case Local(e) =>
          AssignLocal(e, env, start, r0);
          nactvar := nactvar + 1;
          spec := spec.(nactvar := spec.nactvar + 1);
        case Assign(reg, e) =>
          StoreLocal(e, reg, env, start, r0);
      }
    }

    /** `open_func`, with the parameters as the first active variables */
    constructor (params: nat)
      ensures Valid() && spec == Opened(params) && code == []
    {
      code, jpc, lasttarget, freereg, nactvar, k := [], NO_JUMP, 0, params, params, [];
      spec := Opened(params);
    }
  }

  /** Compiles a body; the machine then does what the body means, whatever the arguments. */
  method CompileBody(params: nat, b: seq<Stmt>) returns (code: seq<Instr>, k: seq<Value>)
    requires Scoped(b, params)
    ensures code == Settle(CompileFunction(params, b)) && k == CompileFunction(params, b).k
    ensures forall args: seq<Value>, up: seq<Value> | |args| == params ::
        Behaves(code, Env(k, up), args, Exec(b, args, up))
  {
    hide Between, Run, CompileStmt, Exec, Behaves, Complete, Inv, LocalsActive;
    var f := new FuncState(params);
    ghost var env := Env(CompileFunction(params, b).k, []);
    ghost var r0: Regs := map[];
    OpenedReady(params, env, r0);
    var i := 0;
    assert b[0..] == b;
    while i < |b|
      invariant 0 <= i <= |b| && fresh(f) && f.Valid() && AtStatement(f.spec, 0)
      invariant Run(f.spec.code, env, 0, r0) != Stuck
      invariant Scoped(b[i..], f.nactvar) && CompileBlock(f.spec, b[i..]) == CompileFunction(params, b)
    {
      assert b[i..][0] == b[i] && b[i..][1..] == b[i + 1..];
      ghost var s0 := f.spec;
      assert Scoped([b[i]], f.nactvar);
      BlockConstants(CompileStmt(s0, b[i]), b[i + 1..]);
      StmtRuns(s0, b[i], env, 0, r0);
      f.Statement(b[i], env, 0, r0);
      i := i + 1;
    }
    ReadyListed(f.spec);
    SettledRun(f.spec, env, 0, r0);
    f.DischargeJpc({});
    NothingPending(f.code, f.spec.code);
    code, k := f.code, f.k;
    forall args: seq<Value>, up: seq<Value> | |args| == params
      ensures Behaves(code, Env(k, up), args, Exec(b, args, up))
    {
      FunctionCorrect(args, b, up);
    }
  }

  lemma OpenedReady(params: nat, env: Env, r0: Regs)
    ensures AtStatement(Opened(params), 0) && Run(Opened(params).code, env, 0, r0) != Stuck
  {
  }

  lemma ReadyListed(s: G.FuncState)
    requires AtStatement(s, 0)
    ensures Listed(s, {}) && Between(s, {}, 0)
  {
    InvListed(s, {});
  }

  lemma NothingPending(code: seq<Instr>, open: seq<Instr>)
    requires Refines(code, open) && Complete(open)
    ensures code == open
  {
  }

  lemma UnaryParts(s: G.FuncState, e: G.Expr, op: G.UnOp, y: G.Expr, n: nat, env: Env)
    requires e == G.EUn(op, y) && LocalsActive(e, n) && G.Compile(s, e).0.k <= env.k
    ensures LocalsActive(y, n)
    ensures var (s1, d1) := G.Compile(s, y); s1.k <= env.k && G.Prefix(s1, op, d1) == G.Compile(s, e)
  {
    hide G.Prefix;
  }

  lemma BinParts(s: G.FuncState, e: G.Expr, op: G.BinOp, l: G.Expr, r: G.Expr, n: nat, env: Env)
    requires e == G.EBin(op, l, r) && LocalsActive(e, n) && G.Compile(s, e).0.k <= env.k
    ensures LocalsActive(l, n) && LocalsActive(r, n)
    ensures BinSteps(s, e, op, l, r, env)
  {
    hide G.Compile, G.Infix, G.Posfix, LocalsActive;
    LocalsInBoth(e, op, l, r, n);
    CompileBinary(s, op, l, r);
    var c1 := G.Compile(s, l);
    var c2 := G.Infix(c1.0, op, c1.1);
    var c3 := G.Compile(c2.0, r);
    var c4 := G.Posfix(c3.0, op, c2.1, c3.1);
    assert G.Extends(s, c1.0) && G.Extends(c1.0, c2.0) && G.Extends(c2.0, c3.0) && G.Extends(c3.0, c4.0);
    assert c4 == G.Compile(s, e);
  }

  ghost predicate BinSteps(s: G.FuncState, e: G.Expr, op: G.BinOp, l: G.Expr, r: G.Expr, env: Env) {
    var c1 := G.Compile(s, l);
    var c2 := G.Infix(c1.0, op, c1.1);
    var c3 := G.Compile(c2.0, r);
    && c1.0.k <= env.k && c2.0.k <= env.k && c3.0.k <= env.k && G.Extends(c2.0, c3.0)
    && c1.0.nactvar == s.nactvar && c2.0.nactvar == s.nactvar && c3.0.nactvar == s.nactvar
    && G.Posfix(c3.0, op, c2.1, c3.1) == G.Compile(s, e)
  }

  lemma LocalsInBoth(e: G.Expr, op: G.BinOp, l: G.Expr, r: G.Expr, n: nat)
    requires e == G.EBin(op, l, r) && LocalsActive(e, n)
    ensures LocalsActive(l, n) && LocalsActive(r, n)
  {
  }

  lemma CompileBinary(s: G.FuncState, op: G.BinOp, l: G.Expr, r: G.Expr)
    ensures var (s1, d1) := G.Compile(s, l);
            var (s2, d2) := G.Infix(s1, op, d1);
            var (s3, d3) := G.Compile(s2, r);
            G.Compile(s, G.EBin(op, l, r)) == G.Posfix(s3, op, d2, d3)
  {
    hide G.Infix, G.Posfix;
  }

  lemma PlainDescribes(code: seq<Instr>, code': seq<Instr>, e: Exp, d: G.ExpDesc, s: G.FuncState, base0: int, base: int)
    requires Describes(code, e, d) && FirstOperand(s, d, base0, base)
    ensures Describes(code', e, d)
  {
  }

  lemma TestSeparate(fs: G.FuncState, fs2: G.FuncState, list: seq<nat>, truth: bool, l: G.Expr, r: G.Expr, cx: Context)
    requires cx == Entered(fs, G.EBin(TestOp(truth), l, r), cx.env, cx.start, cx.r0, cx.outer)
    requires var cxl := Entered(fs, l, cx.env, cx.start, cx.r0, cx.outer);
             Forked(fs2, if truth then [] else list, if truth then list else [], cxl, truth)
    ensures cx.outer !! Elems(list)
  {
  }

  lemma TestPosfix(s: G.FuncState, truth: bool, d2: G.ExpDesc, d3: G.ExpDesc)
    ensures var (s4, d4) := G.DischargeVars(s, d3);
            G.Posfix(s, TestOp(truth), d2, d3) == (s4, Joined(d4, TestList(d2, truth), truth))
  {
    hide G.DischargeVars;
  }

  /** Patching tests does not disturb the links. */
  lemma JumpsKept(code: seq<Instr>, head: int, list: seq<nat>, code': seq<Instr>)
    requires Threaded(code, head, list) && |code'| == |code|
    requires forall i :: 0 <= i < |code| && code[i].Jmp? ==> code'[i] == code[i]
    ensures Threaded(code', head, list)
  {
    JumpsKeptExcept(code, head, list, -1, code');
  }

  lemma {:induction false} JumpsKeptExcept(code: seq<Instr>, head: int, list: seq<nat>, p: int, code': seq<Instr>)
    requires Threaded(code, head, list) && |code'| == |code| && forall q :: q in list ==> q != p
    requires forall i :: 0 <= i < |code| && i != p && code[i].Jmp? ==> code'[i] == code[i]
    ensures Threaded(code', head, list)
    decreases |list|
  {
    if list != [] {
      assert list[0] in list && forall q :: q in list[1..] ==> q in list;
      JumpsKeptExcept(code, Link(code, list[0]), list[1..], p, code');
    }
  }

  lemma InvListed(s: G.FuncState, outer: set<nat>)
    requires Inv(s, outer)
    ensures Listed(s, outer)
  {
    forall p | p in s.jpc
      ensures p < |s.code| && s.code[p].Hole?
    {
      assert p in Elems(s.jpc) && p in Holes(s.code);
    }
    forall p | p in outer
      ensures p < |s.code| && s.code[p].Hole? && p !in s.jpc
    {
      assert p in Holes(s.code);
      assert p in s.jpc ==> p in Elems(s.jpc);
    }
  }

  lemma EInvListed(s: G.FuncState, d: G.ExpDesc, cx: Context)
    requires EInv(s, d, cx)
    ensures Listed(s, cx.outer + Owned(d))
  {
    InvListed(s, cx.outer + Owned(d));
  }

  lemma DescribesFrame(code: seq<Instr>, code': seq<Instr>, e: Exp, d: G.ExpDesc, outer: set<nat>)
    requires Describes(code, e, d) && SameAt(code, code', outer + Owned(d))
    ensures Describes(code', e, d) && SameAt(code, code', outer)
  {
    ThreadedFrame(code, code', e.t, d.t);
    ThreadedFrame(code, code', e.f, d.f);
    if d.k.VJMP? { ThreadedFrame(code, code', d.k.jump, [d.k.jump]); }
  }

  lemma RelocFacts(s: G.FuncState, d: G.ExpDesc, cx: Context)
    requires EInv(s, d, cx) && d.k.VRELOCABLE?
    ensures d.k.pc + 1 == |s.code| && IsReloc(s.code[d.k.pc])
    ensures forall p :: p in cx.outer || p in Owned(d) ==> p < d.k.pc
  {
    InvListed(s, cx.outer + Owned(d));
    assert forall p :: p in cx.outer || p in Owned(d) ==> p in cx.outer + Owned(d);
  }

  lemma RelocFrame(code: seq<Instr>, code': seq<Instr>, e: Exp, d: G.ExpDesc, pc: nat)
    requires Describes(code, e, d) && |code'| == |code|
    requires forall i :: 0 <= i < |code| && i != pc ==> code'[i] == code[i]
    requires forall p :: p in Owned(d) ==> p < pc
    requires d.k.VRELOCABLE?
    ensures Describes(code', e, d)
  {
    JumpsKeptExcept(code, e.t, d.t, pc, code') by { assert forall q :: q in d.t ==> q in Owned(d); }
    JumpsKeptExcept(code, e.f, d.f, pc, code') by { assert forall q :: q in d.f ==> q in Owned(d); }
  }

  lemma JumpListed(s: G.FuncState, afterJump: bool, outer: set<nat>)
    requires Listed(s, outer)
    ensures var (s1, list) := if afterJump then (s, []) else G.Jump(s);
            && NoDup(list) && outer !! Elems(list)
            && (!afterJump ==> Listed(s1, outer + Elems(list)))
            && (afterJump ==> outer + Elems(list) == outer)
  {
    var n := |s.code|;
    if !afterJump {
      var list := [n] + s.jpc;
      assert G.Jump(s).1 == list;
      assert forall i :: 0 <= i < |s.jpc| ==> s.jpc[i] in s.jpc;
      assert forall p :: p in list <==> p == n || p in s.jpc;
      assert NoDup(list);
      assert G.Jump(s).0.code == s.code + [Hole];
    }
  }

  lemma OwnedFacts(s: G.FuncState, d: G.ExpDesc, cx: Context)
    requires EInv(s, d, cx)
    ensures NoDup(d.t) && NoDup(d.f) && Elems(d.t) !! Elems(d.f) && cx.outer !! Owned(d)
    ensures d.k.VJMP? ==> d.k.jump !in d.t && d.k.jump !in d.f && s.jpc == []
  {
  }

  /** Joining the comparison's jump to the true list. */
  lemma JoinKept(code: seq<Instr>, code': seq<Instr>, e: Exp, d: G.ExpDesc, s: G.FuncState, outer: set<nat>)
    requires Describes(code, e, d) && d.k.VJMP? && |code'| == |code| && Refines(code, s.code)
    requires Listed(s, outer + Owned(d)) && outer !! Owned(d) && s.jpc == []
    requires NoDup(d.t) && Elems(d.t) !! Elems(d.f) && d.k.jump !in d.t && d.k.jump !in d.f
    requires forall i :: 0 <= i < |code| && i !in d.t ==> code'[i] == code[i]
    requires forall i :: 0 <= i < |code| && code[i].Jmp? ==> code'[i].Jmp?
    requires forall i :: 0 <= i < |code| && !code[i].Jmp? ==> code'[i] == code[i]
    ensures var t1 := d.t + [d.k.jump];
            && Threaded(code', e.f, d.f) && SameAt(code, code', outer) && Refines(code', s.code)
            && NoDup(t1) && Elems(t1) !! Elems(d.f) && outer !! Elems(t1) + Elems(d.f)
            && Elems(t1) + Elems(d.f) == Owned(d)
  {
    var t1 := d.t + [d.k.jump];
    assert forall p :: p in t1 <==> p in d.t || p == d.k.jump;
    assert forall p :: p in outer || p in Owned(d) ==> p in outer + Owned(d);
    assert forall p :: p in d.t ==> p in Owned(d) && p in Elems(d.t);
    assert forall p :: p in d.f ==> p in Owned(d) && p in Elems(d.f);
    ThreadedFrame(code, code', e.f, d.f);
    assert Elems(t1) + Elems(d.f) == Owned(d);
  }

  lemma HeadsDiffer(st: seq<nat>, sf: seq<nat>)
    requires Elems(st) !! Elems(sf) && st != [] && sf != []
    ensures st[0] != sf[0]
  {
    assert st[0] in Elems(st) && sf[0] in Elems(sf);
  }

  lemma ListsAreHoles(s: G.FuncState, outer: set<nat>, st: seq<nat>, sf: seq<nat>)
    requires Listed(s, outer + (Elems(st) + Elems(sf)))
    ensures AllHoles(s.code, st) && AllHoles(s.code, sf)
    ensures forall p :: p in outer || p in s.jpc ==> p < |s.code| && s.code[p].Hole?
    ensures forall p :: p in s.jpc ==> p !in st && p !in sf
  {
    var all := outer + (Elems(st) + Elems(sf));
    assert forall p :: p in outer || p in st || p in sf ==> p in all;
  }

  lemma ListsKept(code: seq<Instr>, code': seq<Instr>, t: int, f: int, st: seq<nat>, sf: seq<nat>, outer: set<nat>)
    requires Threaded(code, t, st) && Threaded(code, f, sf) && SameAt(code, code', outer + (Elems(st) + Elems(sf)))
    ensures Threaded(code', t, st) && Threaded(code', f, sf) && SameAt(code, code', outer)
  {
    ThreadedFrame(code, code', t, st);
    ThreadedFrame(code, code', f, sf);
  }

  lemma LoadsListed(s: G.FuncState, reg: int, afterJump: bool, all: set<nat>, code: seq<Instr>, code': seq<Instr>,
                    s': G.FuncState)
    requires Listed(s, all) && (afterJump ==> s.jpc == []) && s' == G.GetLabel(G.LoadValues(s, reg, afterJump))
    ensures Listed(s', all)
  {
    LoadValuesCode(s, reg, afterJump);
    hide G.LoadValues, AllHoles, NoDup;
    if afterJump {
      LongerListed(s, s', all);
    } else {
      var s1 := s.(code := s.code + [Hole], jpc := [|s.code|] + s.jpc);
      HoleListed(s, s1, all);
      LongerListed(s1, s', all);
    }
  }

  lemma LongerListed(s: G.FuncState, s': G.FuncState, all: set<nat>)
    requires Listed(s, all) && s.code <= s'.code && s'.jpc == s.jpc
    ensures Listed(s', all)
  {
  }

  lemma HoleListed(s: G.FuncState, s1: G.FuncState, all: set<nat>)
    requires Listed(s, all) && s1.code == s.code + [Hole] && s1.jpc == [|s.code|] + s.jpc
    ensures Listed(s1, all)
  {
    assert s1.jpc[1..] == s.jpc;
    assert forall i :: 0 <= i < |s.jpc| ==> s.jpc[i] in s.jpc;
    assert forall p :: p in s1.jpc <==> p in s.jpc || p == |s.code|;
  }

  lemma ListedSame(s: G.FuncState, code: seq<Instr>, all: set<nat>, outer: set<nat>)
    requires Listed(s, all) && outer <= all && |code| == |s.code|
    ensures SameAt(code, code, outer)
  {
  }

  /** `hasjumps` compares the heads of the two lists. */
  lemma HeadsAgree(code: seq<Instr>, e: Exp, d: G.ExpDesc, s: G.FuncState, cx: Context)
    requires Describes(code, e, d) && EInv(s, d, cx)
    ensures HasJumps(e) == G.HasJumps(d)
  {
    ThreadedHead(code, e.t, d.t);
    ThreadedHead(code, e.f, d.f);
    if d.t != [] && d.f != [] { HeadsDiffer(d.t, d.f); }
  }

  lemma FullListed(s: G.FuncState, d: G.ExpDesc, cx: Context)
    requires Full(s, d, cx)
    ensures Listed(s, cx.outer + Owned(d)) && cx.outer !! Owned(d)
  {
    EInvListed(s, d, cx);
  }

  lemma JoinFacts(fs: G.FuncState, s: seq<nat>, sj: seq<nat>, sb: seq<nat>, truth: bool, cx: Context)
    requires ContextInv(fs, if truth then sb else s + sj, if truth then s + sj else sb, cx)
    ensures forall p :: p in sb || p in fs.jpc || p in cx.outer ==>
        p < |fs.code| && fs.code[p].Hole? && p !in s && p !in sj
    ensures forall p :: p in s ==> p < |fs.code| && fs.code[p].Hole?
    ensures Listed(fs, cx.outer + Elems(s + sj) + Elems(sb))
    ensures cx.outer + Elems(s + sj) !! Elems(sb)
  {
    HolesBelow(fs, if truth then sb else s + sj, if truth then s + sj else sb, cx);
    assert forall p :: p in s + sj <==> p in s || p in sj;
    assert cx.outer + Elems(s + sj) + Elems(sb) == cx.outer + Elems(sb) + Elems(s + sj);
    InvListed(fs, cx.outer + Elems(s + sj) + Elems(sb));
    forall p | p in sb || p in fs.jpc || p in cx.outer
      ensures p !in s && p !in sj
    {
      assert p in sb ==> p in Elems(sb);
      assert p in fs.jpc ==> p in Elems(fs.jpc);
      assert p in s + sj ==> p in Elems(s + sj);
    }
  }

  lemma ConstantContext(s: G.FuncState, d: G.ExpDesc, cx: Context)
    requires Full(s, d, cx) && IsPlain(d.k) && !d.k.VNONRELOC?
    ensures ContextInv(s, d.t, d.f, cx)
  {
    assert cx.outer + Owned(d) == cx.outer + Elems(d.t) + Elems(d.f);
    assert cx.outer !! Elems(d.t) !! Elems(d.f) by { assert cx.outer !! Owned(d); }
  }

  lemma SplitLists(back: seq<nat>, s: seq<nat>, sj: seq<nat>, fs: G.FuncState, cx: Context, truth: bool)
    requires ContextInv(fs, if truth then back else s + sj, if truth then s + sj else back, cx)
    ensures NoDup(s) && Elems(s) !! Elems(sj)
  {
    var l := s + sj;
    assert NoDup(l);
    assert forall i :: 0 <= i < |s| ==> l[i] == s[i];
    forall i, k | 0 <= i < |s| && 0 <= k < |sj|
      ensures s[i] != sj[k]
    {
      assert l[i] != l[|s| + k];
    }
  }

  lemma OwnedHoles(open: seq<Instr>, d: G.ExpDesc, outer: set<nat>)
    requires forall p :: p in outer + Owned(d) ==> p < |open| && open[p].Hole?
    ensures AllHoles(open, d.t) && AllHoles(open, d.f)
    ensures forall p :: p in outer || p in Owned(d) ==> p < |open| && open[p].Hole?
  {
    assert forall p :: p in d.t || p in d.f ==> p in outer + Owned(d);
    assert forall p :: p in outer || p in Owned(d) ==> p in outer + Owned(d);
  }

  lemma HolesStay(open: seq<Instr>, open': seq<Instr>, d: G.ExpDesc, outer: set<nat>, jpc: seq<nat>)
    requires |open'| == |open| && AllHoles(open, d.t) && AllHoles(open, d.f) && AllHoles(open, jpc)
    requires forall q: nat :: q < |open| && open[q].Hole? ==> open'[q].Hole?
    ensures AllHoles(open', d.t) && AllHoles(open', d.f) && AllHoles(open', jpc)
  {
  }

  lemma NoLists(code: seq<Instr>, e: Exp, d: G.ExpDesc)
    requires Describes(code, e, d) && d.t == [] && d.f == []
    ensures e.t == NO_JUMP && e.f == NO_JUMP
  {
  }

  lemma FirstToRKDesc(s: G.FuncState, d1: G.ExpDesc, d2: G.ExpDesc, o2: RK, cx: Context, base0: int)
    requires Full(s, d2, cx) && IsOperand(s, d2, o2) && FirstOperand(s, d1, base0, cx.base)
    requires G.Exp2RK(s, d1).0.k <= cx.env.k
    ensures var c1 := G.Exp2RK(s, d1).1; c1.t == [] && c1.f == []
  {
    Operators.FirstToRK(s, d1, d2, o2, cx, base0);
  }

  lemma FreeOrder(s: G.FuncState, s': G.FuncState, d: G.ExpDesc, c1: G.ExpDesc, c2: G.ExpDesc, o1: RK, o2: RK,
                  cx: Context, base0: int)
    requires Full(s, c2, cx) && IsOperand(s, c2, o2) && FirstOperand(s, d, base0, cx.base)
    requires LoadedOperand(s, s', d, c1, o1) && s'.nactvar == s.nactvar
    ensures 0 <= s.nactvar
    ensures G.OperandNumber(o1) > G.OperandNumber(o2) ==> FreeOk(s', c1) && FreeOk(G.FreeExp(s', c1), c2)
    ensures G.OperandNumber(o1) <= G.OperandNumber(o2) ==> FreeOk(s', c2) && FreeOk(G.FreeExp(s', c2), c1)
  {
    hide Full;
    FullRegs(s, c2, cx);
  }

  /** What the steps before an arithmetic instruction leave. */
  lemma FreedListed(s: G.FuncState, d1: G.ExpDesc, d2: G.ExpDesc, o2: RK, cx: Context, base0: int, s': G.FuncState)
    requires Full(s, d2, cx) && IsOperand(s, d2, o2) && FirstOperand(s, d1, base0, cx.base)
    requires G.Exp2RK(s, d1).0.k <= cx.env.k
    requires var (s1, c1, o1) := G.Exp2RK(s, d1);
      s' == if G.OperandNumber(o1) > G.OperandNumber(o2) then G.FreeExp(G.FreeExp(s1, c1), d2)
            else G.FreeExp(G.FreeExp(s1, d2), c1)
    ensures Listed(s', cx.outer)
  {
    hide Full, Both, Listed, IsOperand, FirstOperand, G.Exp2RK, G.FreeExp, G.OperandNumber;
    Operators.FirstToRK(s, d1, d2, o2, cx, base0);
    BothListed(s', G.Exp2RK(s, d1).2, o2, d1, cx, base0);
  }

  lemma BothListed(fs: G.FuncState, o1: RK, o2: RK, e1: G.ExpDesc, cx: Context, base0: int)
    requires Both(fs, o1, o2, e1, cx, base0)
    ensures Listed(fs, cx.outer)
  {
    assert cx.outer + Elems([]) + Elems([]) == cx.outer;
    InvListed(fs, cx.outer);
  }

  lemma FirstInPlace(s: G.FuncState, d: G.ExpDesc, base0: int, base: int)
    requires FirstOperand(s, d, base0, base) && !d.k.VKNUM?
    ensures G.Exp2RK(s, d) == (s, d, FirstRK(d))
  {
  }

  lemma CondJumpList(s: G.FuncState, i: Instr)
    ensures G.CondJump(s, i).1 == [|s.code| + 1]
  {
  }

  lemma NoOwned(d: G.ExpDesc, outer: set<nat>)
    requires InRegister(d)
    ensures outer + Owned(d) == outer
  {
  }

  /** The lists of the second operand are apart from each other and from all others. */
  ghost predicate Apart(s: G.FuncState, d: G.ExpDesc, list: seq<nat>, outer: set<nat>) {
    && NoDup(d.t) && NoDup(d.f) && Elems(d.t) !! Elems(list) && Elems(d.f) !! Elems(list)
    && (forall p :: p in d.t ==> p !in d.f && p !in s.jpc && p !in outer && p < |s.code| && s.code[p].Hole?)
    && (forall p :: p in d.f ==> p !in d.t && p !in s.jpc && p !in outer && p < |s.code| && s.code[p].Hole?)
    && (d.k.VJMP? ==> d.k.jump !in d.t && d.k.jump !in d.f && d.k.jump < |s.code|)
    && (forall p :: p in outer || p in s.jpc ==> p < |s.code| && s.code[p].Hole?)
  }

  lemma JoinSeparate(s: G.FuncState, d: G.ExpDesc, list: seq<nat>, cx: Context, outer: set<nat>)
    requires Full(s, d, cx) && cx.outer == outer + Elems(list) && outer !! Elems(list)
    ensures Apart(s, d, list, outer)
  {
    InvListed(s, cx.outer + Owned(d));
    assert forall p :: p in d.t || p in d.f ==> p in Owned(d) && p in cx.outer + Owned(d);
    assert forall p :: p in outer ==> p in cx.outer && p in cx.outer + Owned(d);
    assert forall p :: p in d.t ==> p in Elems(d.t);
    assert forall p :: p in d.f ==> p in Elems(d.f);
  }

  lemma JoinReady(code: seq<Instr>, e: Exp, d: G.ExpDesc, s: seq<nat>, truth: bool, spec: G.FuncState,
                  outer: set<nat>)
    requires Describes(code, e, d) && Apart(spec, d, s, outer)
    ensures var side := if truth then d.f else d.t;
            Threaded(code, if truth then e.f else e.t, side) && NoDup(side) && Elems(side) !! Elems(s)
  {
    hide Threaded, NoDup;
  }

  lemma JoinDone(code: seq<Instr>, code': seq<Instr>, e: Exp, d: G.ExpDesc, l: int, s: seq<nat>, truth: bool,
                 spec: G.FuncState, jpc: int, outer: set<nat>)
    requires Describes(code, e, d) && Apart(spec, d, s, outer) && Refines(code, spec.code)
    requires Threaded(code, jpc, spec.jpc)
    requires |code'| == |code|
    requires var side := if truth then d.f else d.t;
             && Threaded(code', l, side + s)
             && forall i :: 0 <= i < |code| && i !in side ==> code'[i] == code[i]
    requires forall i :: 0 <= i < |code| && code[i].Jmp? ==> code'[i].Jmp?
    requires forall i :: 0 <= i < |code| && !code[i].Jmp? ==> code'[i] == code[i]
    ensures Describes(code', if truth then e.(f := l) else e.(t := l), Joined(d, s, truth))
    ensures Refines(code', spec.code) && Threaded(code', jpc, spec.jpc) && SameAt(code, code', outer)
  {
    ThreadedFrame(code, code', jpc, spec.jpc);
    if truth { ThreadedFrame(code, code', e.t, d.t); } else { ThreadedFrame(code, code', e.f, d.f); }
    if d.k.VJMP? { ThreadedFrame(code, code', d.k.jump, [d.k.jump]); }
  }
}

/** What the code generator keeps between calls, and what emitting one instruction does. */
module Emission {
  import opened Values
  import opened Bytecode
  import opened CodeGen
  import opened PartialCode

  predicate ShapeAt(code: seq<Instr>, lab: nat, i: nat)
    requires i < |code|
  {
    && (IsTest(code[i]) ==> i + 1 < |code| && (code[i + 1].Jmp? || code[i + 1].Hole?))
    && (code[i].TestSet? ==> (code[i].a == NO_REG <==> code[i + 1].Hole?))
    && (code[i].Jmp? ==> i + 1 + code[i].sbx <= lab)
    && (code[i].LoadBool? && code[i].skip ==> i + 2 <= lab)
  }

  /** Tests are followed by their jumps; no jump goes past the last lab. */
  predicate Shape(code: seq<Instr>, lab: nat) {
    lab <= |code| && forall i: nat :: i < |code| ==> ShapeAt(code, lab, i)
  }

  function Elems(list: seq<nat>): set<nat> {
    set p | p in list
  }

  function Holes(code: seq<Instr>): set<nat> {
    set p: nat | 0 <= p < |code| && code[p].Hole?
  }

  /** The pending jumps of the code are those to here and those that enclosing expressions own. */
  predicate Inv(fs: FuncState, outer: set<nat>) {
    && Shape(fs.code, fs.lasttarget)
    && Holes(fs.code) == outer + Elems(fs.jpc)
    && outer !! Elems(fs.jpc)
    && NoDup(fs.jpc)
    && (fs.jpc != [] ==> fs.lasttarget == |fs.code|)
    && fs.nactvar <= fs.freereg
  }

  predicate Here(fs: FuncState, pc: nat) {
    pc == |fs.code| || pc in fs.jpc
  }

  /** A pending jump and the test that controls it are as before. */
  predicate SameJump(code: seq<Instr>, code': seq<Instr>, p: nat) {
    && p < |code| && p < |code'|
    && code'[p] == code[p]
    && (IsValueJump(code', p) <==> IsValueJump(code, p))
    && (IsValueJump(code, p) ==> p >= 1 && code'[p - 1] == code[p - 1])
  }

  predicate SameJumps(code: seq<Instr>, code': seq<Instr>, s: set<nat>) {
    forall p :: p in s ==> SameJump(code, code', p)
  }

  lemma PendingFromShape(code: seq<Instr>, lab: nat, list: seq<nat>)
    requires Shape(code, lab) && NoDup(list) && Elems(list) <= Holes(code)
    ensures PendingList(code, list)
  {
    forall p | p in list
      ensures p < |code| && code[p].Hole?
      ensures IsValueJump(code, p) ==> code[p - 1].a == NO_REG
    {
      assert p in Elems(list);
      ValueJumpControl(code, p);
      if IsValueJump(code, p) { assert ShapeAt(code, lab, p - 1); }
    }
  }

  lemma NotInsideTest(code: seq<Instr>, lab: nat)
    requires Shape(code, lab)
    ensures !Shadowed(code, |code|)
  {
    if |code| > 0 { assert ShapeAt(code, lab, |code| - 1); }
  }

  lemma {:induction false} ExitsInRange(code: seq<Instr>, lab: nat, env: Env, pc: nat, r: Regs)
    requires Shape(code, lab) && pc <= |code|
    ensures var o := Run(code, env, pc, r); o.Exit? ==> o.pc <= |code| && (o.pc < |code| ==> code[o.pc].Hole?)
    decreases |code| - pc
  {
    if pc < |code| && !code[pc].Hole? {
      assert ShapeAt(code, lab, pc);
      var c := code[pc];
      if IsTest(c) {
        match Taken(c, env, r)
        case Fail =>
        case Ok(true) => ExitsInRange(code, lab, env, pc + 1, AfterTest(c, r));
        case Ok(false) => ExitsInRange(code, lab, env, pc + 2, r);
      } else if c.Jmp? {
        if c.sbx >= 0 { ExitsInRange(code, lab, env, pc + 1 + c.sbx, r); }
      } else if c.LoadBool? && c.skip {
        ExitsInRange(code, lab, env, pc + 2, Put(r, c.a, Bool(c.v)));
      } else {
        match Execute(c, env, r)
        case Fail =>
        case Ok(r') => ExitsInRange(code, lab, env, pc + 1, r');
      }
    }
  }

  // ----- patching keeps the shape -----

  lemma PatchShape(code: seq<Instr>, lab: nat, list: seq<nat>, v: nat, reg: int, d: int)
    requires Shape(code, lab) && PendingList(code, list)
    requires v <= lab && (d <= lab || forall p :: p in list ==> IsValueJump(code, p))
    ensures var code' := PatchListAux(code, list, v, reg, d);
            && Shape(code', lab)
            && Holes(code') == Holes(code) - Elems(list)
            && SameJumps(code, code', Holes(code) - Elems(list))
  {
    var code' := PatchListAux(code, list, v, reg, d);
    PatchListFrame(code, list, v, reg, d);
    forall i: nat | i < |code|
      ensures ShapeAt(code', lab, i)
      ensures code'[i].Hole? <==> code[i].Hole? && i !in list
    {
      assert PatchedAt(code, list, v, d, i, code');
      assert ShapeAt(code, lab, i);
      if i + 1 < |code| { assert PatchedAt(code, list, v, d, i + 1, code'); }
    }
    forall p | p in Holes(code) - Elems(list)
      ensures SameJump(code, code', p)
    {
      ValueJumpControl(code, p);
      ValueJumpControl(code', p);
      assert PatchedAt(code, list, v, d, p, code');
      if p >= 1 { assert PatchedAt(code, list, v, d, p - 1, code'); }
    }
  }

  lemma DischargeJpcOk(fs: FuncState, outer: set<nat>)
    requires Inv(fs, outer)
    ensures var d := DischargeJpc(fs);
            && Inv(d, outer) && |d.code| == |fs.code|
            && SameJumps(fs.code, d.code, outer)
  {
    PendingFromShape(fs.code, fs.lasttarget, fs.jpc);
    if fs.jpc != [] {
      PatchShape(fs.code, fs.lasttarget, fs.jpc, |fs.code|, NO_REG, |fs.code|);
      assert Holes(fs.code) - Elems(fs.jpc) == outer;
    }
  }

  lemma DischargeJpcRun(fs: FuncState, outer: set<nat>, env: Env, pc: nat, r: Regs)
    requires Inv(fs, outer) && pc <= |fs.code| && !Shadowed(fs.code, pc)
    ensures var o := Run(fs.code, env, pc, r);
            Run(DischargeJpc(fs).code, env, pc, r) ==
            if o.Exit? && Here(fs, o.pc) then Exit(|fs.code|, o.regs) else o
  {
    PendingFromShape(fs.code, fs.lasttarget, fs.jpc);
    NotInsideTest(fs.code, fs.lasttarget);
    PatchListRun(fs.code, fs.jpc, |fs.code|, |fs.code|, NO_REG, |fs.code|, env, pc, r);
  }

  /** `luaK_code` for an instruction that may stand alone. */
  lemma CodeOk(fs: FuncState, i: Instr, outer: set<nat>)
    requires Inv(fs, outer) && IsStraight(i)
    ensures var fs' := Code(fs, i);
            && Inv(fs', outer) && fs'.jpc == [] && |fs'.code| == |fs.code| + 1 && fs'.code[|fs.code|] == i
            && fs'.lasttarget <= |fs.code|
            && SameJumps(fs.code, fs'.code, outer)
  {
    DischargeJpcOk(fs, outer);
    var d := DischargeJpc(fs);
    var fs' := Code(fs, i);
    forall j: nat | j < |fs'.code|
      ensures ShapeAt(fs'.code, fs'.lasttarget, j)
    {
      if j < |fs.code| { assert ShapeAt(d.code, d.lasttarget, j); }
    }
    forall p | p in outer
      ensures SameJump(fs.code, fs'.code, p)
    {
      assert p in Holes(d.code) && SameJump(fs.code, d.code, p);
    }
    forall p: nat
      ensures p in Holes(fs'.code) <==> p in Holes(d.code)
    {
    }
    assert Holes(fs'.code) == Holes(d.code);
  }

  /** Runs that arrived here execute the new instruction; other runs do not notice it. */
  lemma CodeRun(fs: FuncState, i: Instr, outer: set<nat>, env: Env, pc: nat, r: Regs)
    requires Inv(fs, outer) && pc <= |fs.code| && !Shadowed(fs.code, pc)
    ensures var o := Run(fs.code, env, pc, r);
            var code' := Code(fs, i).code;
            Run(code', env, pc, r) ==
            if o.Exit? && Here(fs, o.pc) then Run(code', env, |fs.code|, o.regs) else o
  {
    DischargeJpcOk(fs, outer);
    DischargeJpcRun(fs, outer, env, pc, r);
    var d := DischargeJpc(fs);
    ExitsInRange(d.code, d.lasttarget, env, pc, r);
    AppendRun(d.code, i, env, pc, r);
  }

  /** `condjump`: a test and its pending jump. */
  lemma CondJumpOk(fs: FuncState, i: Instr, outer: set<nat>)
    requires Inv(fs, outer) && IsTest(i) && (i.TestSet? ==> i.a == NO_REG)
    ensures var (fs', list) := CondJump(fs, i);
            && |fs'.code| == |fs.code| + 2 && fs'.code[|fs.code|] == i && list == [|fs.code| + 1]
            && Inv(fs', outer + {|fs.code| + 1}) && |fs.code| + 1 !in outer
            && fs'.jpc == [] && fs'.lasttarget <= |fs.code|
            && SameJumps(fs.code, fs'.code, outer)
            && fs' == fs.(code := fs'.code, jpc := [])
            && fs'.code == DischargeJpc(fs).code + [i, Hole]
  {
    DischargeJpcOk(fs, outer);
    var d := DischargeJpc(fs);
    var (fs', list) := CondJump(fs, i);
    assert fs'.code == d.code + [i, Hole];
    forall j: nat | j < |fs'.code|
      ensures ShapeAt(fs'.code, fs'.lasttarget, j)
    {
      if j < |fs.code| {
        assert ShapeAt(d.code, d.lasttarget, j);
        if j + 1 < |fs.code| { assert fs'.code[j + 1] == d.code[j + 1]; }
      }
    }
    forall p | p in outer
      ensures SameJump(fs.code, fs'.code, p)
    {
      assert p in Holes(d.code) && SameJump(fs.code, d.code, p);
    }
    forall p: nat
      ensures p in Holes(fs'.code) <==> p in Holes(d.code) || p == |fs.code| + 1
    {
    }
    assert Holes(fs'.code) == outer + {|fs.code| + 1};
  }

  lemma CondJumpRun(fs: FuncState, i: Instr, outer: set<nat>, env: Env, pc: nat, r: Regs)
    requires Inv(fs, outer) && IsTest(i) && (i.TestSet? ==> i.a == NO_REG)
    requires pc <= |fs.code| && !Shadowed(fs.code, pc)
    ensures var o := Run(fs.code, env, pc, r);
            Run(CondJump(fs, i).0.code, env, pc, r) ==
            if o.Exit? && Here(fs, o.pc) then
              match Taken(i, env, o.regs)
              case Fail => Error
              case Ok(true) => Exit(|fs.code| + 1, o.regs)
              case Ok(false) => Exit(|fs.code| + 2, o.regs)
            else o
  {
    CondJumpOk(fs, i, outer);
    DischargeJpcOk(fs, outer);
    DischargeJpcRun(fs, outer, env, pc, r);
    var d := DischargeJpc(fs);
    var (fs', list) := CondJump(fs, i);
    var n := |fs.code|;
    var o := Run(fs.code, env, pc, r);
    ExitsInRange(d.code, d.lasttarget, env, pc, r);
    AppendRun(d.code, i, env, pc, r);
    var code1 := d.code + [i];
    assert fs'.code == code1 + [Hole];
    AppendRun(code1, Hole, env, pc, r);
    if o.Exit? && Here(fs, o.pc) {
      var r' := o.regs;
      assert Run(code1, env, pc, r) == Run(code1, env, n, r');
      assert code1[n] == i && AfterTest(i, r') == r';
      match Taken(i, env, r') {
        case Fail => assert Run(code1, env, n, r') == Error;
        case Ok(true) => assert Run(code1, env, n, r') == Run(code1, env, n + 1, r');
        case Ok(false) => assert Run(code1, env, n, r') == Land(code1, env, n, n + 2, r') == Exit(n + 2, r');
      }
      assert Run(code1, env, n + 1, r') == Exit(n + 1, r');
      assert Run(fs'.code, env, n + 1, r') == Exit(n + 1, r');
    }
  }
}

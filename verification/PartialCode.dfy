/** How edits of partial code change where its execution ends. */
module PartialCode {
  import opened Values
  import opened Bytecode
  import opened CodeGen

  /** Where a run that ended at `p` ends when it goes on from `q` in the edited code. */
  function Resume(o: Outcome, p: nat, code: seq<Instr>, env: Env, q: nat): Outcome {
    if o.Exit? && o.pc == p then Run(code, env, q, o.regs) else o
  }

  lemma {:induction false} AppendRun(code: seq<Instr>, i: Instr, env: Env, pc: nat, r: Regs)
    requires pc <= |code|
    requires var o := Run(code, env, pc, r); !IsTest(i) || !o.Exit? || o.pc <= |code|
    ensures Run(code + [i], env, pc, r) == Resume(Run(code, env, pc, r), |code|, code + [i], env, |code|)
    decreases |code| - pc
  {
    var code' := code + [i];
    if pc < |code| && !code[pc].Hole? {
      var c := code[pc];
      if IsTest(c) {
        match Taken(c, env, r)
        case Fail =>
        case Ok(true) => AppendRun(code, i, env, pc + 1, AfterTest(c, r));
        case Ok(false) => AppendLand(code, i, env, pc, pc + 2, r);
      } else if c.Jmp? {
        if c.sbx >= 0 { AppendLand(code, i, env, pc, pc + 1 + c.sbx, r); }
      } else if c.LoadBool? && c.skip {
        AppendLand(code, i, env, pc, pc + 2, Put(r, c.a, Bool(c.v)));
      } else {
        match Execute(c, env, r)
        case Fail =>
        case Ok(r') => AppendRun(code, i, env, pc + 1, r');
      }
    }
  }

  lemma {:induction false} AppendLand(code: seq<Instr>, i: Instr, env: Env, from: nat, pc: nat, r: Regs)
    requires from < |code| && from < pc
    requires var o := Land(code, env, from, pc, r); !IsTest(i) || !o.Exit? || o.pc <= |code|
    ensures Land(code + [i], env, from, pc, r) == Resume(Land(code, env, from, pc, r), |code|, code + [i], env, |code|)
    decreases |code| - from, 0
  {
    var code' := code + [i];
    if pc <= |code| {
      assert Shadowed(code', pc) == Shadowed(code, pc) by {
        if pc > 0 { assert code'[pc - 1] == code[pc - 1]; }
      }
      if !Shadowed(code, pc) { AppendRun(code, i, env, pc, r); }
    } else {
      assert Land(code, env, from, pc, r) == Exit(pc, r);
    }
  }

  lemma {:induction false} FillRun(code: seq<Instr>, p: nat, d: nat, env: Env, pc: nat, r: Regs)
    requires p < |code| && code[p].Hole?
    ensures var code' := code[p := Jmp(d)];
            var o := Run(code, env, pc, r);
            Run(code', env, pc, r) ==
            if o.Exit? && o.pc == p then Land(code', env, p, p + 1 + d, o.regs) else o
    decreases |code| - pc
  {
    hide Execute, AfterTest;
    var code' := code[p := Jmp(d)];
    if pc < |code| && !code[pc].Hole? {
      var c := code[pc];
      if IsTest(c) {
        match Taken(c, env, r)
        case Fail =>
        case Ok(true) => FillRun(code, p, d, env, pc + 1, AfterTest(c, r));
        case Ok(false) => FillRun(code, p, d, env, pc + 2, r);
      } else if c.Jmp? {
        if c.sbx >= 0 { FillRun(code, p, d, env, pc + 1 + c.sbx, r); }
      } else if c.LoadBool? && c.skip {
        FillRun(code, p, d, env, pc + 2, Put(r, c.a, Bool(c.v)));
      } else {
        match Execute(c, env, r)
        case Fail =>
        case Ok(r') => FillRun(code, p, d, env, pc + 1, r');
      }
    }
  }

  /** Replacing the value test before a hole by one that tests the same register. */
  predicate SameTest(i: Instr, i': Instr) {
    && i.TestSet? && i.a == NO_REG
    && (i' == Test(i.b, i.c) || (i'.TestSet? && i'.b == i.b && i'.c == i.c))
  }

  lemma {:induction false} RetestRun(code: seq<Instr>, p: nat, i': Instr, env: Env, pc: nat, r: Regs)
    requires 1 <= p < |code| && code[p].Hole? && SameTest(code[p - 1], i')
    requires pc != p
    ensures var o := Run(code, env, pc, r);
            Run(code[p - 1 := i'], env, pc, r) ==
            if o.Exit? && o.pc == p then Exit(p, AfterTest(i', o.regs)) else o
    decreases |code| - pc
  {
    var code' := code[p - 1 := i'];
    if pc < |code| && !code[pc].Hole? && pc != p - 1 {
      var c := code[pc];
      if IsTest(c) {
        match Taken(c, env, r)
        case Fail =>
        case Ok(true) => RetestRun(code, p, i', env, pc + 1, AfterTest(c, r));
        case Ok(false) => RetestLand(code, p, i', env, pc, pc + 2, r);
      } else if c.Jmp? {
        if c.sbx >= 0 { RetestLand(code, p, i', env, pc, pc + 1 + c.sbx, r); }
      } else if c.LoadBool? && c.skip {
        RetestLand(code, p, i', env, pc, pc + 2, Put(r, c.a, Bool(c.v)));
      } else {
        match Execute(c, env, r)
        case Fail =>
        case Ok(r') => RetestRun(code, p, i', env, pc + 1, r');
      }
    } else if pc == p - 1 {
      var c := code[pc];
      match Taken(c, env, r)
      case Fail =>
      case Ok(true) =>
        assert Run(code, env, p, r) == Exit(p, r);
        assert Run(code', env, p, AfterTest(i', r)) == Exit(p, AfterTest(i', r));
      case Ok(false) => RetestLand(code, p, i', env, pc, pc + 2, r);
    }
  }

  lemma {:induction false} RetestLand(code: seq<Instr>, p: nat, i': Instr, env: Env, from: nat, pc: nat, r: Regs)
    requires 1 <= p < |code| && code[p].Hole? && SameTest(code[p - 1], i')
    requires from < |code| && from < pc
    ensures var o := Land(code, env, from, pc, r);
            Land(code[p - 1 := i'], env, from, pc, r) ==
            if o.Exit? && o.pc == p then Exit(p, AfterTest(i', o.regs)) else o
    decreases |code| - from, 0
  {
    if !Shadowed(code, pc) { RetestRun(code, p, i', env, pc, r); }
  }

  lemma {:induction false} RunForward(code: seq<Instr>, env: Env, pc: nat, r: Regs)
    ensures var o := Run(code, env, pc, r); o.Exit? ==> o.pc >= pc
    decreases |code| - pc
  {
    if pc < |code| && !code[pc].Hole? {
      var c := code[pc];
      if IsTest(c) {
        match Taken(c, env, r)
        case Fail =>
        case Ok(true) => RunForward(code, env, pc + 1, AfterTest(c, r));
        case Ok(false) => RunForward(code, env, pc + 2, r);
      } else if c.Jmp? {
        if c.sbx >= 0 { RunForward(code, env, pc + 1 + c.sbx, r); }
      } else if c.LoadBool? && c.skip {
        RunForward(code, env, pc + 2, Put(r, c.a, Bool(c.v)));
      } else {
        match Execute(c, env, r)
        case Fail =>
        case Ok(r') => RunForward(code, env, pc + 1, r');
      }
    }
  }

  /** Execution from `pc` depends on the code from `pc` only. */
  lemma {:induction false} SuffixRun(code: seq<Instr>, code': seq<Instr>, env: Env, pc: nat, r: Regs)
    requires |code'| == |code| && pc <= |code| && code'[pc..] == code[pc..]
    ensures Run(code', env, pc, r) == Run(code, env, pc, r)
    decreases |code| - pc
  {
    if pc < |code| {
      var c := code[pc];
      assert code'[pc] == code'[pc..][0] == code[pc..][0];
      if !c.Hole? {
        if IsTest(c) {
          match Taken(c, env, r)
          case Fail =>
          case Ok(true) => SuffixRun1(code, code', env, pc, pc + 1, AfterTest(c, r));
          case Ok(false) => SuffixRun1(code, code', env, pc, pc + 2, r);
        } else if c.Jmp? {
          if c.sbx >= 0 { SuffixRun1(code, code', env, pc, pc + 1 + c.sbx, r); }
        } else if c.LoadBool? && c.skip {
          SuffixRun1(code, code', env, pc, pc + 2, Put(r, c.a, Bool(c.v)));
        } else {
          match Execute(c, env, r)
          case Fail =>
          case Ok(r') => SuffixRun1(code, code', env, pc, pc + 1, r');
        }
      }
    }
  }

  lemma {:induction false} SuffixRun1(code: seq<Instr>, code': seq<Instr>, env: Env, pc: nat, q: nat, r: Regs)
    requires |code'| == |code| && pc < q && pc < |code| && code'[pc..] == code[pc..]
    ensures Run(code', env, q, r) == Run(code, env, q, r)
    ensures Land(code', env, pc, q, r) == Land(code, env, pc, q, r)
    decreases |code| - pc, 0
  {
    if q <= |code| {
      assert code'[q..] == code'[pc..][q - pc..] == code[pc..][q - pc..] == code[q..];
      assert code'[q - 1] == code'[pc..][q - 1 - pc] == code[pc..][q - 1 - pc] == code[q - 1];
      SuffixRun(code, code', env, q, r);
    }
  }

  // ----- patching a list -----

  predicate NoDup(s: seq<nat>) {
    forall i, j :: 0 <= i < j < |s| ==> s[i] != s[j]
  }

  /** Every element of the list is a pending jump, and none occurs twice. */
  predicate PendingList(code: seq<Instr>, list: seq<nat>) {
    && NoDup(list)
    && (forall p :: p in list ==> p < |code| && code[p].Hole?)
    && (forall p :: p in list && IsValueJump(code, p) ==> code[p - 1].a == NO_REG)
  }

  lemma ValueJumpControl(code: seq<Instr>, p: nat)
    requires p < |code| && code[p].Hole?
    ensures IsValueJump(code, p) <==> p >= 1 && code[p - 1].TestSet?
    ensures IsValueJump(code, p) ==> Control(code, p) == p - 1
  {
  }

  function PatchedRegs(code: seq<Instr>, p: nat, reg: int, r: Regs): Regs
    requires p < |code| && code[p].Hole?
  {
    if IsValueJump(code, p) && reg != NO_REG && reg != code[p - 1].b then r[reg := Get(r, code[p - 1].b)] else r
  }

  /** Patching one pending jump redirects the runs that ended there and no other run. */
  lemma PatchOneRun(code: seq<Instr>, p: nat, v: nat, reg: int, d: int, env: Env, pc: nat, r: Regs)
    requires p < |code| && code[p].Hole? && pc <= |code| && !Shadowed(code, pc)
    requires IsValueJump(code, p) ==> code[p - 1].a == NO_REG
    requires var q := if IsValueJump(code, p) then v else d;
             p < q <= |code| && !Shadowed(code, q)
    ensures var o := Run(code, env, pc, r);
            var q := if IsValueJump(code, p) then v else d;
            Run(PatchOne(code, p, v, reg, d), env, pc, r) ==
            if o.Exit? && o.pc == p then Run(code, env, q, PatchedRegs(code, p, reg, o.regs)) else o
  {
    ValueJumpControl(code, p);
    var o := Run(code, env, pc, r);
    var q := if IsValueJump(code, p) then v else d;
    var code1 := PatchTestReg(code, p, reg);
    if IsValueJump(code, p) {
      RetestRun(code, p, code1[p - 1], env, pc, r);
    }
    var o1 := Run(code1, env, pc, r);
    var code2 := FixJump(code1, p, q);
    assert code2 == PatchOne(code, p, v, reg, d) == code1[p := Jmp(q - (p + 1))];
    FillRun(code1, p, q - (p + 1), env, pc, r);
    if o.Exit? && o.pc == p {
      assert o1 == Exit(p, PatchedRegs(code, p, reg, o.regs));
      assert code2[q..] == code[q..];
      assert !Shadowed(code2, q);
      SuffixRun(code, code2, env, q, o1.regs);
    }
  }

  /** A value test that no longer waits for a register. */
  predicate Settled(i: Instr, i': Instr) {
    SameTest(i, i') && !(i'.TestSet? && i'.a == NO_REG)
  }

  lemma PatchOneFrame(code: seq<Instr>, list: seq<nat>, v: int, reg: int, d: int)
    requires PendingList(code, list) && list != []
    ensures var p := list[0];
            var code1 := PatchOne(code, p, v, reg, d);
            && |code1| == |code| && p < |code|
            && code1[p] == Jmp((if IsValueJump(code, p) then v else d) - (p + 1))
            && (IsValueJump(code, p) ==> p >= 1 && Settled(code[p - 1], code1[p - 1]))
            && (forall i :: 0 <= i < |code| && i != p && !(IsValueJump(code, p) && i == p - 1) ==> code1[i] == code[i])
            && PendingList(code1, list[1..])
            && (forall q :: q in list[1..] ==> IsValueJump(code1, q) == IsValueJump(code, q))
  {
    var p := list[0];
    var code1 := PatchOne(code, p, v, reg, d);
    assert p in list;
    ValueJumpControl(code, p);
    forall q | q in list[1..]
      ensures q < |code1| && code1[q].Hole? && IsValueJump(code1, q) == IsValueJump(code, q)
      ensures IsValueJump(code1, q) ==> code1[q - 1] == code[q - 1]
    {
      var k :| 0 <= k < |list[1..]| && list[1..][k] == q;
      assert list[k + 1] == q && q != p;
      ValueJumpControl(code, q);
      ValueJumpControl(code1, q);
    }
  }

  /** What patching does at one position. */
  predicate PatchedAt(code: seq<Instr>, list: seq<nat>, v: int, d: int, i: nat, code': seq<Instr>)
    requires i < |code| && |code'| == |code|
  {
    if i in list then code'[i] == Jmp((if IsValueJump(code, i) then v else d) - (i + 1))
    else if code[i].TestSet? && i + 1 in list then Settled(code[i], code'[i])
    else code'[i] == code[i]
  }

  lemma {:induction false} PatchListAt(code: seq<Instr>, list: seq<nat>, v: int, reg: int, d: int, i: nat)
    requires PendingList(code, list) && i < |code|
    ensures |PatchListAux(code, list, v, reg, d)| == |code|
    ensures PatchedAt(code, list, v, d, i, PatchListAux(code, list, v, reg, d))
    decreases |list|
  {
    if list != [] {
      var p, rest := list[0], list[1..];
      var code1 := PatchOne(code, p, v, reg, d);
      PatchOneFrame(code, list, v, reg, d);
      PatchListAt(code1, rest, v, reg, d, i);
      assert list == [p] + rest;
      assert p !in rest;
      if i == p {
        assert code1[i].Jmp?;
      } else if i in rest {
        assert IsValueJump(code1, i) == IsValueJump(code, i);
      } else if IsValueJump(code, p) && i == p - 1 {
        assert code[p].Hole? && i + 1 == p;
      } else {
        assert code1[i] == code[i];
      }
    }
  }

  lemma PatchListFrame(code: seq<Instr>, list: seq<nat>, v: int, reg: int, d: int)
    requires PendingList(code, list)
    ensures var code' := PatchListAux(code, list, v, reg, d);
            |code'| == |code| && forall i: nat :: i < |code| ==> PatchedAt(code, list, v, d, i, code')
  {
    forall i: nat | i < |code|
      ensures PatchedAt(code, list, v, d, i, PatchListAux(code, list, v, reg, d))
    {
      PatchListAt(code, list, v, reg, d, i);
    }
  }

  function PatchTarget(code: seq<Instr>, p: nat, v: nat, d: int): int {
    if IsValueJump(code, p) then v else d
  }

  /** A destination from `lo` on and not inside a test. */
  predicate GoodTarget(code: seq<Instr>, lo: nat, q: int) {
    lo <= q <= |code| && !Shadowed(code, q)
  }

  /** The list lies below `lo`, its destinations from `lo` on; `d` is not used if all jumps carry values. */
  predicate GoodTargets(code: seq<Instr>, list: seq<nat>, lo: nat, v: nat, d: int) {
    && (forall p :: p in list ==> p < lo)
    && GoodTarget(code, lo, v)
    && (GoodTarget(code, lo, d) || forall p :: p in list ==> IsValueJump(code, p))
  }

  lemma PatchOneTargets(code: seq<Instr>, list: seq<nat>, lo: nat, v: nat, reg: int, d: int)
    requires PendingList(code, list) && list != [] && GoodTargets(code, list, lo, v, d)
    ensures var code1 := PatchOne(code, list[0], v, reg, d);
            && GoodTargets(code1, list[1..], lo, v, d)
            && code1[lo..] == code[lo..]
            && forall q: nat :: lo <= q ==> Shadowed(code1, q) == Shadowed(code, q)
  {
    var p := list[0];
    assert p in list && forall x :: x in list[1..] ==> x in list;
    PatchOneFrame(code, list, v, reg, d);
    var code1 := PatchOne(code, p, v, reg, d);
    forall q: nat | lo <= q <= |code|
      ensures Shadowed(code1, q) == Shadowed(code, q)
    {
      if q - 1 == p { assert code[p].Hole? && code1[p].Jmp?; }
    }
  }

  /** Patching a list redirects exactly the runs that ended at its elements. */
  lemma {:induction false} PatchListRun(
    code: seq<Instr>, list: seq<nat>, lo: nat, v: nat, reg: int, d: int, env: Env, pc: nat, r: Regs)
    requires PendingList(code, list) && pc <= |code| && !Shadowed(code, pc)
    requires GoodTargets(code, list, lo, v, d)
    ensures var o := Run(code, env, pc, r);
            Run(PatchListAux(code, list, v, reg, d), env, pc, r) ==
            if o.Exit? && o.pc in list
            then Run(code, env, PatchTarget(code, o.pc, v, d), PatchedRegs(code, o.pc, reg, o.regs))
            else o
    decreases |list|
  {
    if list != [] {
      var o := Run(code, env, pc, r);
      var p, rest := list[0], list[1..];
      assert list == [p] + rest;
      var code1 := PatchOne(code, p, v, reg, d);
      PatchOneFrame(code, list, v, reg, d);
      PatchOneTargets(code, list, lo, v, reg, d);
      PatchOneRun(code, p, v, reg, d, env, pc, r);
      PatchedStart(code, p, v, reg, d, pc);
      PatchListRun(code1, rest, lo, v, reg, d, env, pc, r);
      if o.Exit? && o.pc == p {
        RunForward(code, env, PatchTarget(code, p, v, d), PatchedRegs(code, p, reg, o.regs));
      } else if o.Exit? && o.pc in rest {
        var q := PatchTarget(code, o.pc, v, d);
        PatchedRegsSame(code, list, v, reg, d, o.pc, o.regs);
        assert code1[q..] == code1[lo..][q - lo..] == code[lo..][q - lo..] == code[q..];
        SuffixRun(code, code1, env, q, PatchedRegs(code, o.pc, reg, o.regs));
      }
    }
  }

  lemma PatchedStart(code: seq<Instr>, p: nat, v: int, reg: int, d: int, pc: nat)
    requires PendingList(code, [p]) && pc <= |code| && !Shadowed(code, pc)
    ensures !Shadowed(PatchOne(code, p, v, reg, d), pc)
  {
    assert p in [p];
    PatchOneFrame(code, [p], v, reg, d);
  }

  lemma PatchedRegsSame(code: seq<Instr>, list: seq<nat>, v: int, reg: int, d: int, q: nat, r: Regs)
    requires PendingList(code, list) && list != [] && q in list[1..]
    ensures var code1 := PatchOne(code, list[0], v, reg, d);
            q < |code| && code[q].Hole? && q < |code1| && code1[q].Hole? &&
            PatchedRegs(code1, q, reg, r) == PatchedRegs(code, q, reg, r)
  {
    PatchOneFrame(code, list, v, reg, d);
    assert q in list;
    ValueJumpControl(code, q);
    var p := list[0];
    assert p in list && q != p;
  }
}

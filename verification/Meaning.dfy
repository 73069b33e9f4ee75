/** What an expression descriptor means, and how discharging one keeps its meaning. */
module Meaning {
  import opened Values
  import opened Bytecode
  import opened CodeGen
  import opened PartialCode
  import opened Emission

  /** How a run enters an expression: it arrives with registers `r`, in which the expression has
      value `v`, or it ends before, in an error or at a jump that an enclosing expression owns. */
  datatype Entry = Arrives(v: Res<Value>, r: Regs) | Elsewhere(o: Outcome)

  /** One run, and what encloses the expression: the pending jumps `outer` that others own, as they
      are in `code0`; `base` is the first register the expression may use, and register `except`
      the one it may assign besides. */
  datatype Context = Context(
    env: Env, start: nat, r0: Regs, outer: set<nat>, code0: seq<Instr>, base: int, except: int, entry: Entry)

  /** The code without the instruction or jump that the descriptor still owns. */
  function Core(fs: FuncState, e: ExpDesc): seq<Instr> {
    if e.k.VRELOCABLE? && |fs.code| >= 1 then fs.code[..|fs.code| - 1]
    else if e.k.VJMP? && |fs.code| >= 2 then fs.code[..|fs.code| - 2]
    else fs.code
  }

  predicate IsReloc(i: Instr) {
    i.GetUpval? || i.Arith? || i.Unm? || i.Not? || i.Len?
  }

  function Owned(e: ExpDesc): set<nat> {
    Elems(e.t) + Elems(e.f) + if e.k.VJMP? then {e.k.jump} else {}
  }

  predicate KindInv(fs: FuncState, e: ExpDesc) {
    match e.k
    case VK(i) => i < |fs.k|
    case VNONRELOC(r) => r >= 0
    case VLOCAL(r) => r >= 0
    case VJMP(p) =>
      && p + 1 == |fs.code| && p >= 1 && fs.code[p].Hole? && fs.code[p - 1].Cmp?
      && fs.jpc == [] && fs.lasttarget <= p - 1
      && p !in e.t && p !in e.f
    case VRELOCABLE(p) =>
      && p + 1 == |fs.code| && IsReloc(fs.code[p])
      && fs.jpc == [] && fs.lasttarget <= p
    case _ => true
  }

  predicate StartOk(code: seq<Instr>, lasttarget: nat, start: nat) {
    && start <= |code| && !Shadowed(code, start)
    && (start < |code| || lasttarget == |code|)
  }

  predicate EInv(fs: FuncState, e: ExpDesc, cx: Context) {
    && Inv(fs, cx.outer + Owned(e))
    && cx.outer !! Owned(e)
    && NoDup(e.t) && NoDup(e.f) && Elems(e.t) !! Elems(e.f)
    && KindInv(fs, e)
    && SameJumps(cx.code0, fs.code, cx.outer)
    && StartOk(Core(fs, e), fs.lasttarget, cx.start)
    && fs.k <= cx.env.k
    && fs.nactvar <= cx.base
    && 0 <= fs.nactvar
    && (cx.entry.Elsewhere? ==> cx.entry.o.Error? || (cx.entry.o.Exit? && cx.entry.o.pc in cx.outer))
  }

  predicate Agree(r: Regs, r': Regs, base: int, except: int) {
    forall i :: 0 <= i < base && i != except ==> Get(r, i) == Get(r', i)
  }

  /** The value the descriptor has where control is, given the registers there. */
  function KindValue(fs: FuncState, e: ExpDesc, env: Env, r: Regs): Res<Value>
    requires KindInv(fs, e)
  {
    match e.k
    case VNIL => Ok(Nil)
    case VTRUE => Ok(Bool(true))
    case VFALSE => Ok(Bool(false))
    case VK(i) => Ok(At(env.k, i))
    case VKNUM(n) => Ok(Num(n))
    case VNONRELOC(i) => Ok(Get(r, i))
    case VLOCAL(i) => Ok(Get(r, i))
    case VUPVAL(u) => Ok(At(env.up, u))
    case VRELOCABLE(p) => Computes(fs.code[p], env, r)
    case VJMP(p) => BoolRes(Taken(fs.code[p - 1], env, r))
  }

  /** A run that ends at pending jump `p` has the value `v`: in the tested register if the jump
      carries a value, and otherwise the boolean that the list stands for. */
  predicate Carries(code: seq<Instr>, p: nat, v: Value, r: Regs, truth: bool) {
    && IsFalse(v) == !truth
    && (if IsValueJump(code, p) && p >= 1 && p <= |code| && code[p - 1].TestSet?
        then Get(r, code[p - 1].b) == v else v == Bool(truth))
  }

  predicate EndsWell(fs: FuncState, e: ExpDesc, cx: Context, o: Outcome, v: Res<Value>, r: Regs)
    requires KindInv(fs, e)
  {
    match o
    case Error => v == Fail
    case Stuck => false
    case Exit(p, r') =>
      && Agree(r', r, cx.base, cx.except)
      && (|| ((p == |Core(fs, e)| || p in fs.jpc) && KindValue(fs, e, cx.env, r') == v)
          || (v.Ok? && p in e.t && Carries(fs.code, p, v.value, r', true))
          || (v.Ok? && p in e.f && Carries(fs.code, p, v.value, r', false)))
  }

  /** The run arrives at the value of the expression, or at one of its exits with that value. */
  predicate Means(fs: FuncState, e: ExpDesc, cx: Context)
    requires KindInv(fs, e)
  {
    var o := Run(Core(fs, e), cx.env, cx.start, cx.r0);
    match cx.entry
    case Elsewhere(o') => o == o'
    case Arrives(v, r) => EndsWell(fs, e, cx, o, v, r)
  }

  // ----- small facts -----

  lemma CoreShape(fs: FuncState, e: ExpDesc, cx: Context)
    requires EInv(fs, e, cx)
    ensures Shape(Core(fs, e), fs.lasttarget)
    ensures SameJumps(fs.code, Core(fs, e), cx.outer + Elems(e.t) + Elems(e.f))
    ensures e.k.VRELOCABLE? ==> Holes(Core(fs, e)) == Holes(fs.code)
  {
    var c := Core(fs, e);
    forall i: nat | i < |c|
      ensures ShapeAt(c, fs.lasttarget, i)
    {
      assert ShapeAt(fs.code, fs.lasttarget, i);
    }
    forall p | p in cx.outer + Elems(e.t) + Elems(e.f)
      ensures SameJump(fs.code, c, p)
    {
      assert p in Holes(fs.code);
    }
    if e.k.VRELOCABLE? {
      assert forall p: nat :: p in Holes(c) <==> p in Holes(fs.code);
    }
  }

  lemma CarriesSame(code: seq<Instr>, code': seq<Instr>, p: nat, v: Value, r: Regs, truth: bool)
    requires SameJump(code, code', p) && code[p].Hole? && Carries(code, p, v, r, truth)
    ensures Carries(code', p, v, r, truth)
  {
    ValueJumpControl(code, p);
    ValueJumpControl(code', p);
  }

  predicate Arrived(fs: FuncState, e: ExpDesc, o: Outcome) {
    o.Exit? && (o.pc == |Core(fs, e)| || o.pc in fs.jpc)
  }

  function Target(cx: Context, reg: int): Context {
    cx.(except := reg)
  }

  lemma OuterExits(fs: FuncState, e: ExpDesc, cx: Context)
    requires EInv(fs, e, cx) && cx.entry.Elsewhere?
    ensures !Arrived(fs, e, cx.entry.o)
  {
    if cx.entry.o.Exit? {
      assert cx.entry.o.pc in Holes(fs.code);
    }
  }

  /** Runs that do not arrive at the value are not affected, so only the others matter. */
  lemma Transfer(fs: FuncState, e: ExpDesc, fs': FuncState, e': ExpDesc, cx: Context, reg: int)
    requires EInv(fs, e, cx) && Means(fs, e, cx) && KindInv(fs', e')
    requires e'.t == e.t && e'.f == e.f
    requires cx.except == -1 || cx.except == reg
    requires SameJumps(fs.code, fs'.code, Elems(e.t) + Elems(e.f))
    requires var o := Run(Core(fs, e), cx.env, cx.start, cx.r0);
             var o' := Run(Core(fs', e'), cx.env, cx.start, cx.r0);
             if Arrived(fs, e, o) then cx.entry.Arrives? ==>
                 EndsWell(fs', e', Target(cx, reg), o', cx.entry.v, cx.entry.r)
             else o' == o
    ensures Means(fs', e', Target(cx, reg))
  {
    var o := Run(Core(fs, e), cx.env, cx.start, cx.r0);
    match cx.entry
    case Elsewhere(o0) => OuterExits(fs, e, cx);
    case Arrives(v, r) =>
      if !Arrived(fs, e, o) && o.Exit? && v.Ok? {
        var p := o.pc;
        if p in e.t && Carries(fs.code, p, v.value, o.regs, true) {
          assert p in Elems(e.t) && p in Holes(fs.code);
          CarriesSame(fs.code, fs'.code, p, v.value, o.regs, true);
        } else {
          assert p in Elems(e.f) && p in Holes(fs.code);
          CarriesSame(fs.code, fs'.code, p, v.value, o.regs, false);
        }
      }
  }

  lemma ArrivedValue(fs: FuncState, e: ExpDesc, cx: Context)
    requires EInv(fs, e, cx) && Means(fs, e, cx) && cx.entry.Arrives?
    requires Arrived(fs, e, Run(Core(fs, e), cx.env, cx.start, cx.r0))
    ensures var r' := Run(Core(fs, e), cx.env, cx.start, cx.r0).regs;
            && Agree(r', cx.entry.r, cx.base, cx.except)
            && KindValue(fs, e, cx.env, r') == cx.entry.v
  {
    var p := Run(Core(fs, e), cx.env, cx.start, cx.r0).pc;
    assert p in Owned(e) ==> p in Holes(fs.code);
  }

  predicate IsPlain(k: Kind) {
    !k.VJMP? && !k.VRELOCABLE?
  }

  /** Emitting an instruction that waits for its destination register. */
  lemma EmitReloc(fs: FuncState, e: ExpDesc, i: Instr, cx: Context)
    requires EInv(fs, e, cx) && IsPlain(e.k) && IsReloc(i)
    ensures var fs' := Code(fs, i);
            var e' := e.(k := VRELOCABLE(|fs.code|));
            && EInv(fs', e', cx)
            && SameJumps(fs.code, fs'.code, cx.outer + Elems(e.t) + Elems(e.f))
            && fs'.code[|fs.code|] == i && |Core(fs', e')| == |fs.code|
            && Run(Core(fs', e'), cx.env, cx.start, cx.r0) ==
               var o := Run(fs.code, cx.env, cx.start, cx.r0);
               if Arrived(fs, e, o) then Exit(|fs.code|, o.regs) else o
  {
    var fs' := Code(fs, i);
    var e' := e.(k := VRELOCABLE(|fs.code|));
    CodeOk(fs, i, cx.outer + Owned(e));
    DischargeJpcOk(fs, cx.outer + Owned(e));
    DischargeJpcRun(fs, cx.outer + Owned(e), cx.env, cx.start, cx.r0);
    var d := DischargeJpc(fs);
    assert Core(fs', e') == d.code;
    if cx.start > 0 { StartKept(fs, cx.outer + Owned(e), cx.start); }
  }

  lemma StartKept(fs: FuncState, outer: set<nat>, start: nat)
    requires Inv(fs, outer) && 0 < start <= |fs.code| && !Shadowed(fs.code, start)
    ensures !Shadowed(DischargeJpc(fs).code, start)
  {
    PendingFromShape(fs.code, fs.lasttarget, fs.jpc);
    PatchListFrame(fs.code, fs.jpc, |fs.code|, NO_REG, |fs.code|);
    assert PatchedAt(fs.code, fs.jpc, |fs.code|, |fs.code|, start - 1, DischargeJpc(fs).code);
  }

  lemma DischargeVarsOk(fs: FuncState, e: ExpDesc, cx: Context)
    requires EInv(fs, e, cx) && Means(fs, e, cx) && cx.except == -1
    ensures var (fs', e') := DischargeVars(fs, e);
            && EInv(fs', e', cx) && Means(fs', e', cx)
            && e'.t == e.t && e'.f == e.f && !e'.k.VLOCAL? && !e'.k.VUPVAL?
  {
    if e.k.VUPVAL? {
      var (fs', e') := DischargeVars(fs, e);
      EmitReloc(fs, e, GetUpval(0, e.k.up), cx);
      if cx.entry.Arrives? && Arrived(fs, e, Run(fs.code, cx.env, cx.start, cx.r0)) { ArrivedValue(fs, e, cx); }
      Transfer(fs, e, fs', e', cx, -1);
      assert Target(cx, -1) == cx;
    }
  }

  // ----- discharging to a register -----

  predicate Loads(i: Instr, reg: int) {
    IsStraight(i) && !i.LoadNil? && i.a == reg
  }

  lemma EmitLoad(fs: FuncState, e: ExpDesc, i: Instr, reg: int, cx: Context)
    requires EInv(fs, e, cx) && Means(fs, e, cx) && IsPlain(e.k)
    requires Loads(i, reg) && reg >= 0 && cx.except == -1
    requires var o := Run(fs.code, cx.env, cx.start, cx.r0);
             cx.entry.Arrives? && Arrived(fs, e, o) ==> Computes(i, cx.env, o.regs) == cx.entry.v
    ensures var fs' := Code(fs, i);
            var e' := e.(k := VNONRELOC(reg));
            EInv(fs', e', Target(cx, reg)) && Means(fs', e', Target(cx, reg))
  {
    var fs' := Code(fs, i);
    var e' := e.(k := VNONRELOC(reg));
    var outer := cx.outer + Owned(e);
    CodeOk(fs, i, outer);
    CodeRun(fs, i, outer, cx.env, cx.start, cx.r0);
    if cx.start > 0 { StartKept(fs, outer, cx.start); }
    var o := Run(fs.code, cx.env, cx.start, cx.r0);
    if cx.entry.Arrives? && Arrived(fs, e, o) {
      ArrivedValue(fs, e, cx);
      var n := |fs.code|;
      if cx.entry.v.Ok? {
        assert Run(fs'.code, cx.env, n, o.regs) == Run(fs'.code, cx.env, n + 1, Put(o.regs, reg, cx.entry.v.value));
      }
    }
    Transfer(fs, e, fs', e', cx, reg);
  }

  lemma SetALoads(i: Instr, reg: int)
    requires IsReloc(i)
    ensures Loads(SetA(i, reg), reg) && !SetA(i, reg).LoadBool?
    ensures forall env: Env, r: Regs :: Computes(SetA(i, reg), env, r) == Computes(i, env, r)
  {
  }

  lemma SetReloc(fs: FuncState, e: ExpDesc, reg: int, cx: Context)
    requires EInv(fs, e, cx) && Means(fs, e, cx) && e.k.VRELOCABLE? && reg >= 0 && cx.except == -1
    ensures var fs' := fs.(code := fs.code[e.k.pc := SetA(fs.code[e.k.pc], reg)]);
            var e' := e.(k := VNONRELOC(reg));
            EInv(fs', e', Target(cx, reg)) && Means(fs', e', Target(cx, reg))
  {
    var p := e.k.pc;
    var i := SetA(fs.code[p], reg);
    var fs' := fs.(code := fs.code[p := i]);
    var e' := e.(k := VNONRELOC(reg));
    var core := Core(fs, e);
    SetALoads(fs.code[p], reg);
    CoreShape(fs, e, cx);
    assert fs'.code == core + [i];
    forall j: nat | j < |fs'.code|
      ensures ShapeAt(fs'.code, fs'.lasttarget, j)
    {
      assert ShapeAt(fs.code, fs.lasttarget, j);
    }
    assert forall q: nat :: q in Holes(fs'.code) <==> q in Holes(fs.code);
    forall q | q in Owned(e)
      ensures SameJump(fs.code, fs'.code, q)
    {
      assert q in Holes(fs.code);
    }
    AppendRun(core, i, cx.env, cx.start, cx.r0);
    var o := Run(core, cx.env, cx.start, cx.r0);
    if Arrived(fs, e, o) {
      if cx.entry.Arrives? {
        ArrivedValue(fs, e, cx);
        assert Computes(i, cx.env, o.regs) == cx.entry.v;
        if cx.entry.v.Ok? {
          assert Run(fs'.code, cx.env, p, o.regs) == Run(fs'.code, cx.env, p + 1, Put(o.regs, reg, cx.entry.v.value));
        }
      }
    }
    Transfer(fs, e, fs', e', cx, reg);
  }

  ghost predicate NilIn(r: Regs, r': Regs, from: int, n: nat) {
    forall i :: Get(r', i) == if from <= i < from + n then Nil else Get(r, i)
  }

  /** `luaK_nil` merges with a LOADNIL just before only when no jump comes in between. */
  lemma CodeNilOk(fs: FuncState, from: int, n: nat, outer: set<nat>)
    requires Inv(fs, outer) && n > 0
    ensures var fs' := CodeNil(fs, from, n);
            && Inv(fs', outer) && fs' == fs.(code := fs'.code, jpc := [])
            && |fs'.code| >= |fs.code| && |fs'.code| >= 1
            && SameJumps(fs.code, fs'.code, outer)
  {
    var fs' := CodeNil(fs, from, n);
    CodeOk(fs, LoadNil(from, n - 1), outer);
    if |fs'.code| == |fs.code| {
      forall j: nat | j < |fs'.code|
        ensures ShapeAt(fs'.code, fs'.lasttarget, j)
      {
        assert ShapeAt(fs.code, fs.lasttarget, j);
      }
      assert forall q: nat :: q in Holes(fs'.code) <==> q in Holes(fs.code);
      assert Holes(fs'.code) == Holes(fs.code);
      forall p | p in outer
        ensures SameJump(fs.code, fs'.code, p)
      {
        assert p in Holes(fs.code);
      }
    }
  }

  lemma CodeNilRun(fs: FuncState, from: int, n: nat, outer: set<nat>, env: Env, start: nat, r: Regs)
    requires Inv(fs, outer) && n > 0 && StartOk(fs.code, fs.lasttarget, start)
    ensures var fs' := CodeNil(fs, from, n);
            && StartOk(fs'.code, fs'.lasttarget, start)
            && var o := Run(fs.code, env, start, r);
               var o' := Run(fs'.code, env, start, r);
               if o.Exit? && Here(fs, o.pc) then o'.Exit? && o'.pc == |fs'.code| && NilIn(o.regs, o'.regs, from, n)
               else o' == o
  {
    var fs' := CodeNil(fs, from, n);
    var o := Run(fs.code, env, start, r);
    if |fs'.code| == |fs.code| + 1 {
      CodeRun(fs, LoadNil(from, n - 1), outer, env, start, r);
      CodeOk(fs, LoadNil(from, n - 1), outer);
      if start > 0 { StartKept(fs, outer, start); }
      if o.Exit? && Here(fs, o.pc) {
        var r' := NilRange(o.regs, from, n - 1);
        assert Run(fs'.code, env, |fs.code|, o.regs) == Run(fs'.code, env, |fs.code| + 1, r') ==
            Exit(|fs.code| + 1, r');
      }
    } else {
      MergeNilRun(fs, from, n, outer, env, start, r);
    }
  }

  lemma MergeNilRun(fs: FuncState, from: int, n: nat, outer: set<nat>, env: Env, start: nat, r: Regs)
    requires Inv(fs, outer) && n > 0 && StartOk(fs.code, fs.lasttarget, start)
    requires |CodeNil(fs, from, n).code| != |fs.code| + 1
    ensures var fs' := CodeNil(fs, from, n);
            && |fs'.code| == |fs.code|
            && StartOk(fs'.code, fs'.lasttarget, start)
            && var o := Run(fs.code, env, start, r);
               var o' := Run(fs'.code, env, start, r);
               if o.Exit? && Here(fs, o.pc) then o'.Exit? && o'.pc == |fs'.code| && NilIn(o.regs, o'.regs, from, n)
               else o' == o
  {
    var fs' := CodeNil(fs, from, n);
    var m := |fs.code| - 1;
    var core := fs.code[..m];
    var p, p' := fs.code[m], fs'.code[m];
    assert fs.code == core + [p] && fs'.code == core + [p'];
    forall j: nat | j < |core|
      ensures ShapeAt(core, fs.lasttarget, j)
    {
      assert ShapeAt(fs.code, fs.lasttarget, j);
    }
    assert !Shadowed(core, start) && !Shadowed(fs'.code, start);
    ExitsInRange(core, fs.lasttarget, env, start, r);
    AppendRun(core, p, env, start, r);
    AppendRun(core, p', env, start, r);
    var c := Run(core, env, start, r);
    if c.Exit? && c.pc == m {
      var r1 := NilRange(c.regs, p.a, p.n);
      var r2 := NilRange(c.regs, p'.a, p'.n);
      assert Run(fs.code, env, m, c.regs) == Run(fs.code, env, m + 1, r1) == Exit(m + 1, r1);
      assert Run(fs'.code, env, m, c.regs) == Run(fs'.code, env, m + 1, r2) == Exit(m + 1, r2);
    }
  }

  lemma EmitNil(fs: FuncState, e: ExpDesc, reg: int, cx: Context)
    requires EInv(fs, e, cx) && Means(fs, e, cx) && e.k.VNIL? && reg >= 0 && cx.except == -1
    ensures var fs' := CodeNil(fs, reg, 1);
            var e' := e.(k := VNONRELOC(reg));
            EInv(fs', e', Target(cx, reg)) && Means(fs', e', Target(cx, reg))
  {
    var fs' := CodeNil(fs, reg, 1);
    var e' := e.(k := VNONRELOC(reg));
    var outer := cx.outer + Owned(e);
    CodeNilOk(fs, reg, 1, outer);
    CodeNilRun(fs, reg, 1, outer, cx.env, cx.start, cx.r0);
    if cx.entry.Arrives? && Arrived(fs, e, Run(fs.code, cx.env, cx.start, cx.r0)) { ArrivedValue(fs, e, cx); }
    Transfer(fs, e, fs', e', cx, reg);
  }

  lemma AddKOk(fs: FuncState, v: Value, env: Env)
    requires AddK(fs, v).0.k <= env.k
    ensures var (fs', i) := AddK(fs, v);
            && fs' == fs.(k := fs'.k) && fs.k <= fs'.k && i < |fs'.k|
            && At(env.k, i) == v
  {
    var (fs', i) := AddK(fs, v);
    assert fs'.k[i] == v;
    assert env.k[i] == fs'.k[i];
  }

  /** Adding constants changes nothing that a descriptor means. */
  lemma MoreConstants(fs: FuncState, k: seq<Value>, e: ExpDesc, cx: Context)
    requires EInv(fs, e, cx) && Means(fs, e, cx) && fs.k <= k <= cx.env.k
    ensures EInv(fs.(k := k), e, cx) && Means(fs.(k := k), e, cx)
  {
    assert Core(fs.(k := k), e) == Core(fs, e);
  }

  /** `discharge2reg`: the value goes to the register, except for a comparison, which stays a jump. */
  lemma Discharge2RegOk(fs: FuncState, e: ExpDesc, reg: int, cx: Context)
    requires EInv(fs, e, cx) && Means(fs, e, cx) && reg >= 0 && cx.except == -1
    requires Discharge2Reg(fs, e, reg).0.k <= cx.env.k
    ensures var (fs', e') := Discharge2Reg(fs, e, reg);
            && EInv(fs', e', Target(cx, reg)) && Means(fs', e', Target(cx, reg))
            && e'.t == e.t && e'.f == e.f
            && (e.k.VJMP? ==> fs' == fs && e' == e)
            && (!e.k.VJMP? ==> e'.k == VNONRELOC(reg))
  {
    var (fs1, e1) := DischargeVars(fs, e);
    DischargeVarsOk(fs, e, cx);
    match e1.k
    case VNIL => EmitNil(fs1, e1, reg, cx);
    case VFALSE => EmitConstant(fs1, e1, LoadBool(reg, false, false), reg, cx);
    case VTRUE => EmitConstant(fs1, e1, LoadBool(reg, true, false), reg, cx);
    case VK(i) => EmitConstant(fs1, e1, LoadK(reg, i), reg, cx);
    case VKNUM(n) =>
      var (fs2, i) := AddK(fs1, Num(n));
      AddKOk(fs1, Num(n), cx.env);
      MoreConstants(fs1, fs2.k, e1, cx);
      EmitConstant(fs2, e1, LoadK(reg, i), reg, cx);
    case VRELOCABLE(p) => SetReloc(fs1, e1, reg, cx);
    case VNONRELOC(r) =>
      if r != reg { EmitConstant(fs1, e1, Move(reg, r), reg, cx); } else { WeakenTarget(fs1, e1, reg, cx); }
    case VJMP(p) => WeakenTarget(fs1, e1, reg, cx);
  }

  lemma WeakenTarget(fs: FuncState, e: ExpDesc, reg: int, cx: Context)
    requires EInv(fs, e, cx) && Means(fs, e, cx) && cx.except == -1
    ensures EInv(fs, e, Target(cx, reg)) && Means(fs, e, Target(cx, reg))
  {
  }

  lemma EmitConstant(fs: FuncState, e: ExpDesc, i: Instr, reg: int, cx: Context)
    requires EInv(fs, e, cx) && Means(fs, e, cx) && reg >= 0 && cx.except == -1
    requires match e.k
             case VFALSE => i == LoadBool(reg, false, false)
             case VTRUE => i == LoadBool(reg, true, false)
             case VK(c) => i == LoadK(reg, c)
             case VKNUM(n) => i.LoadK? && i.a == reg && At(cx.env.k, i.bx) == Num(n)
             case VNONRELOC(r) => i == Move(reg, r)
             case _ => false
    ensures var fs' := Code(fs, i);
            var e' := e.(k := VNONRELOC(reg));
            EInv(fs', e', Target(cx, reg)) && Means(fs', e', Target(cx, reg))
  {
    var o := Run(fs.code, cx.env, cx.start, cx.r0);
    if cx.entry.Arrives? && Arrived(fs, e, o) { ArrivedValue(fs, e, cx); }
    EmitLoad(fs, e, i, reg, cx);
  }
}

/** Resolution of variable names while nested functions are parsed. Every upvalue descriptor leads to the
    variable that the innermost enclosing declaration of its name introduces. */
module Scoping {
  import opened Basics

  /** A declared variable; declarations of the same name have different `id`s. */
  datatype Var = Var(name: string, id: nat)

  /** `Upvaldesc`: a register of the enclosing function, or one of its upvalues. */
  datatype UpvalDesc = UpvalDesc(name: string, instack: bool, idx: nat)

  /** `BlockCnt`: how many variables were active outside, and whether one declared inside is an upvalue. */
  datatype Block = Block(nactvar: nat, upval: bool)

  /** A function being parsed: its active variables in the order of their registers, its upvalues and its
      blocks, the innermost first. `captured` are the registers that inner functions refer to. */
  datatype Func = Func(vars: seq<Var>, ups: seq<UpvalDesc>, blocks: seq<Block>, captured: set<nat>)

  /** The functions that enclose the current point, the innermost first; the last one is the main function. */
  type Chain = seq<Func>

  const ENVNAME: string := "_ENV"
  const ENVID: nat := 0

  // ----- lexical scope -----

  /** The last active variable of that name. */
  function VarIn(vars: seq<Var>, n: string): (v: int)
    ensures -1 <= v < |vars|
    ensures v >= 0 ==> vars[v].name == n && forall j :: v < j < |vars| ==> vars[j].name != n
    ensures v == -1 ==> forall j :: 0 <= j < |vars| ==> vars[j].name != n
    decreases |vars|
  {
    if vars == [] then -1
    else if vars[|vars| - 1].name == n then |vars| - 1
    else VarIn(vars[..|vars| - 1], n)
  }

  /** The variable that a name means: the innermost declaration that is in scope. */
  function Lexical(c: Chain, n: string): Option<nat>
    decreases |c|
  {
    if c == [] then None
    else
      var v := VarIn(c[0].vars, n);
      if v >= 0 then Some(c[0].vars[v].id)
      else if |c| == 1 then (if n == ENVNAME then Some(ENVID) else None)
      else Lexical(c[1..], n)
  }

  /** The variable that an upvalue of the innermost function leads to. */
  function Denotes(c: Chain, i: nat): Option<nat>
    decreases |c|
  {
    if c == [] || i >= |c[0].ups| then None
    else if |c| == 1 then Some(ENVID)
    else
      var u := c[0].ups[i];
      if u.instack then (if u.idx < |c[1].vars| then Some(c[1].vars[u.idx].id) else None)
      else Denotes(c[1..], u.idx)
  }

  // ----- what parsing keeps -----

  /** The block in which the variable of the register was declared. */
  function BlockOf(blocks: seq<Block>, r: nat): nat
    decreases |blocks|
  {
    if blocks == [] || blocks[0].nactvar <= r then 0 else 1 + BlockOf(blocks[1..], r)
  }

  predicate BlocksOk(f: Func) {
    && f.blocks != [] && f.blocks[|f.blocks| - 1].nactvar == 0 && f.blocks[0].nactvar <= |f.vars|
    && forall i, j :: 0 <= i < j < |f.blocks| ==> f.blocks[j].nactvar <= f.blocks[i].nactvar
  }

  /** Every variable that an inner function uses is in a block that will close it. */
  predicate CapturedOk(f: Func) {
    forall r :: r in f.captured ==>
        r < |f.vars| && BlockOf(f.blocks, r) < |f.blocks| && f.blocks[BlockOf(f.blocks, r)].upval
  }

  predicate UpvalOk(c: Chain, i: nat)
    requires c != [] && i < |c[0].ups|
  {
    var u := c[0].ups[i];
    if |c| == 1 then u.name == ENVNAME
    else
      && Denotes(c, i) == Lexical(c[1..], u.name) && Denotes(c, i) != None
      && (u.instack ==> u.idx in c[1].captured)
  }

  predicate FuncOk(c: Chain)
    requires c != []
  {
    && BlocksOk(c[0]) && CapturedOk(c[0])
    && (|c| == 1 ==> exists i :: 0 <= i < |c[0].ups| && c[0].ups[i].name == ENVNAME)
    && forall i :: 0 <= i < |c[0].ups| ==> UpvalOk(c, i)
  }

  predicate ChainOk(c: Chain)
    decreases |c|
  {
    c == [] || (FuncOk(c) && ChainOk(c[1..]))
  }

  // ----- resolution -----

  /** `searchupvalue` */
  function UpvalIn(ups: seq<UpvalDesc>, n: string, i: nat): (u: int)
    requires i <= |ups|
    ensures u == -1 || i <= u < |ups|
    ensures u >= 0 ==> ups[u].name == n
    ensures u == -1 ==> forall j :: i <= j < |ups| ==> ups[j].name != n
    decreases |ups| - i
  {
    if i == |ups| then -1 else if ups[i].name == n then i else UpvalIn(ups, n, i + 1)
  }

  datatype Resolved = VVOID | VLOCAL(reg: nat) | VUPVAL(up: nat)

  /** `markupval` */
  function Mark(f: Func, level: nat): Func {
    var b := BlockOf(f.blocks, level);
    f.(blocks := if b < |f.blocks| then f.blocks[b := f.blocks[b].(upval := true)] else f.blocks,
       captured := f.captured + {level})
  }

  /** `singlevaraux` */
  function Resolve(c: Chain, n: string, base: bool): (Chain, Resolved)
    decreases |c|
  {
    if c == [] then (c, VVOID)
    else
      var v := VarIn(c[0].vars, n);
      if v >= 0 then (if base then c else c[0 := Mark(c[0], v)], VLOCAL(v))
      else
        var i := UpvalIn(c[0].ups, n, 0);
        if i >= 0 then (c, VUPVAL(i))
        else
          var (outer, r) := Resolve(c[1..], n, false);
          match r
          case VVOID => (c, VVOID)
          case VLOCAL(v) => ([c[0].(ups := c[0].ups + [UpvalDesc(n, true, v)])] + outer, VUPVAL(|c[0].ups|))
          case VUPVAL(u) => ([c[0].(ups := c[0].ups + [UpvalDesc(n, false, u)])] + outer, VUPVAL(|c[0].ups|))
  }

  /** Resolution only adds upvalues and marks. */
  predicate Grows(c: Chain, c': Chain) {
    && |c'| == |c|
    && forall d :: 0 <= d < |c| ==> c'[d].vars == c[d].vars && c[d].ups <= c'[d].ups && c[d].captured <= c'[d].captured
  }

  lemma {:induction false} GrowsLexical(c: Chain, c': Chain, n: string)
    requires Grows(c, c')
    ensures Lexical(c', n) == Lexical(c, n)
    decreases |c|
  {
    if c != [] { GrowsLexical(c[1..], c'[1..], n); }
  }

  lemma {:induction false} GrowsDenotes(c: Chain, c': Chain, i: nat)
    requires Grows(c, c') && c != [] && i < |c[0].ups|
    requires Denotes(c, i) != None
    ensures Denotes(c', i) == Denotes(c, i)
    decreases |c|
  {
    assert c'[0].ups[i] == c[0].ups[i];
    if |c| > 1 && !c[0].ups[i].instack { GrowsDenotes(c[1..], c'[1..], c[0].ups[i].idx); }
  }

  lemma {:induction false} BlockInside(blocks: seq<Block>, r: nat)
    requires blocks != [] && blocks[|blocks| - 1].nactvar == 0
    ensures BlockOf(blocks, r) < |blocks| && blocks[BlockOf(blocks, r)].nactvar <= r
    decreases |blocks|
  {
    if blocks[0].nactvar > r { BlockInside(blocks[1..], r); }
  }

  lemma {:induction false} BlockSame(a: seq<Block>, b: seq<Block>, r: nat)
    requires |a| == |b| && forall i :: 0 <= i < |a| ==> a[i].nactvar == b[i].nactvar
    ensures BlockOf(a, r) == BlockOf(b, r)
    decreases |a|
  {
    if a != [] { BlockSame(a[1..], b[1..], r); }
  }

  lemma MarkOk(f: Func, level: nat)
    requires BlocksOk(f) && CapturedOk(f) && level < |f.vars|
    ensures BlocksOk(Mark(f, level)) && CapturedOk(Mark(f, level))
  {
    BlockInside(f.blocks, level);
    var f' := Mark(f, level);
    forall r | r in f'.captured
      ensures r < |f'.vars| && BlockOf(f'.blocks, r) < |f'.blocks| && f'.blocks[BlockOf(f'.blocks, r)].upval
    {
      BlockSame(f.blocks, f'.blocks, r);
    }
  }

  /** What resolution gives. */
  ghost predicate Names(c: Chain, n: string, c': Chain, r: Resolved, base: bool) {
    && Grows(c, c')
    && match r
       case VVOID => Lexical(c, n) == None
       case VLOCAL(v) =>
         c != [] && v < |c[0].vars| && Lexical(c, n) == Some(c[0].vars[v].id) && (!base ==> v in c'[0].captured)
       case VUPVAL(u) => c != [] && u < |c'[0].ups| && Lexical(c, n) != None && Denotes(c', u) == Lexical(c, n)
  }

  /** An upvalue stays in order when the enclosing functions gain upvalues and marks. */
  lemma UpvalStays(c: Chain, c': Chain, i: nat)
    requires c != [] && i < |c[0].ups| && UpvalOk(c, i) && Grows(c, c') && |c'[0].ups| >= |c[0].ups|
    ensures UpvalOk(c', i)
  {
    assert c'[0].ups[i] == c[0].ups[i];
    if |c| > 1 {
      GrowsDenotes(c, c', i);
      GrowsLexical(c[1..], c'[1..], c[0].ups[i].name);
    }
  }

  /** A name resolves to the variable that it means, at any depth of nesting, and every upvalue recorded
      before still leads to its own. */
  lemma {:induction false} ResolveOk(c: Chain, n: string, base: bool)
    requires ChainOk(c)
    ensures var (c', r) := Resolve(c, n, base);
            ChainOk(c') && Names(c, n, c', r, base)
    decreases |c|
  {
    if c != [] {
      var v := VarIn(c[0].vars, n);
      if v >= 0 {
        MarkOk(c[0], v);
        var c' := Resolve(c, n, base).0;
        if !base {
          assert c'[1..] == c[1..];
          forall i | 0 <= i < |c'[0].ups| ensures UpvalOk(c', i) { assert UpvalOk(c, i); UpvalStays(c, c', i); }
        }
      } else {
        var i := UpvalIn(c[0].ups, n, 0);
        if i >= 0 {
          assert UpvalOk(c, i);
          FoundUpval(c, n, i);
        } else if |c| == 1 {
          assert c[1..] == [];
        } else {
          ResolveOk(c[1..], n, false);
          NewUpvalOk(c, n);
        }
      }
    }
  }

  lemma FoundUpval(c: Chain, n: string, i: nat)
    requires c != [] && i < |c[0].ups| && UpvalOk(c, i) && c[0].ups[i].name == n && VarIn(c[0].vars, n) == -1
    ensures Denotes(c, i) == Lexical(c, n) && Lexical(c, n) != None
  {
  }

  lemma NewUpvalOk(c: Chain, n: string)
    requires ChainOk(c) && |c| > 1 && VarIn(c[0].vars, n) == -1 && UpvalIn(c[0].ups, n, 0) == -1
    requires var (outer, r) := Resolve(c[1..], n, false);
             ChainOk(outer) && Names(c[1..], n, outer, r, false)
    ensures var (c', r) := Resolve(c, n, true);
            ChainOk(c') && Names(c, n, c', r, true) && Names(c, n, c', r, false) && Resolve(c, n, false) == (c', r)
  {
    var (outer, r) := Resolve(c[1..], n, false);
    ResolveOuter(c, n, outer, r);
    hide Resolve, ChainOk;
    if r != VVOID { AddedUpval(c, outer, r, n); }
  }

  /** The descriptor of a variable of the enclosing function. */
  function Desc(n: string, r: Resolved): UpvalDesc {
    match r
    case VLOCAL(v) => UpvalDesc(n, true, v)
    case VUPVAL(u) => UpvalDesc(n, false, u)
    case VVOID => UpvalDesc(n, false, 0)
  }

  function WithUpval(f: Func, u: UpvalDesc): Func { f.(ups := f.ups + [u]) }

  lemma ResolveOuter(c: Chain, n: string, outer: Chain, r: Resolved)
    requires c != [] && VarIn(c[0].vars, n) == -1 && UpvalIn(c[0].ups, n, 0) == -1
    requires (outer, r) == Resolve(c[1..], n, false)
    ensures Resolve(c, n, true) == Resolve(c, n, false)
            == if r == VVOID then (c, VVOID) else ([WithUpval(c[0], Desc(n, r))] + outer, VUPVAL(|c[0].ups|))
  {
  }

  lemma AddedUpval(c: Chain, outer: Chain, r: Resolved, n: string)
    requires ChainOk(c) && |c| > 1 && VarIn(c[0].vars, n) == -1
    requires ChainOk(outer) && Names(c[1..], n, outer, r, false) && r != VVOID
    ensures var c' := [WithUpval(c[0], Desc(n, r))] + outer;
            ChainOk(c') && Names(c, n, c', VUPVAL(|c[0].ups|), true) && Names(c, n, c', VUPVAL(|c[0].ups|), false)
  {
    hide Lexical;
    var c' := [WithUpval(c[0], Desc(n, r))] + outer;
    assert c'[1..] == outer;
    AddedGrows(c, outer, c');
    GrowsLexical(c[1..], outer, n);
    assert Lexical(c, n) == Lexical(c[1..], n) by { LexicalOuter(c, n); }
    AddedDenotes(c, outer, r, n);
    forall i | 0 <= i < |c'[0].ups|
      ensures UpvalOk(c', i)
    {
      if i < |c[0].ups| {
        assert UpvalOk(c, i);
        UpvalStays(c, c', i);
      }
    }
  }

  lemma LexicalOuter(c: Chain, n: string)
    requires |c| > 1 && VarIn(c[0].vars, n) == -1
    ensures Lexical(c, n) == Lexical(c[1..], n)
  {
  }

  lemma AddedDenotes(c: Chain, outer: Chain, r: Resolved, n: string)
    requires |c| > 1 && Names(c[1..], n, outer, r, false) && r != VVOID
    ensures var c' := [WithUpval(c[0], Desc(n, r))] + outer;
            && c'[1..] == outer && Denotes(c', |c[0].ups|) == Lexical(c[1..], n) && Lexical(c[1..], n) != None
            && (Desc(n, r).instack ==> Desc(n, r).idx in outer[0].captured)
  {
    var c' := [WithUpval(c[0], Desc(n, r))] + outer;
    assert c'[1..] == outer && c'[0].ups[|c[0].ups|] == Desc(n, r);
    hide Lexical;
  }

  lemma AddedGrows(c: Chain, outer: Chain, c': Chain)
    requires c != [] && Grows(c[1..], outer) && |c'| == |c| && c'[1..] == outer
    requires c'[0].vars == c[0].vars && c[0].ups <= c'[0].ups && c'[0].captured == c[0].captured
    ensures Grows(c, c')
  {
    forall d | 0 <= d < |c|
      ensures c'[d].vars == c[d].vars && c[d].ups <= c'[d].ups && c[d].captured <= c'[d].captured
    {
      if d > 0 { assert c'[d] == outer[d - 1] && c[d] == c[1..][d - 1]; }
    }
  }

  // ----- parsing -----

  /** What the parser does that concerns scopes. */
  datatype Action =
    | Declare(v: Var)
    | EnterBlock
    | LeaveBlock
    | OpenFunc(params: seq<Var>)
    | CloseFunc
    | Use(n: string)

  predicate Possible(c: Chain, a: Action) {
    && c != []
    && (a.LeaveBlock? ==> |c[0].blocks| > 1)
    && (a.CloseFunc? ==> |c| > 1)
  }

  function Below(s: set<nat>, n: nat): set<nat> {
    set r | r in s && r < n
  }

  /** `leaveblock` removes the variables of the block. */
  function Left(f: Func): Func
    requires |f.blocks| > 1
  {
    var n := f.blocks[0].nactvar;
    f.(vars := if n <= |f.vars| then f.vars[..n] else f.vars, blocks := f.blocks[1..], captured := Below(f.captured, n))
  }

  /** Whether `leaveblock` emits a jump that closes upvalues from the level of the block on. */
  predicate Closes(f: Func)
    requires |f.blocks| > 1
  {
    f.blocks[0].upval
  }

  function Act(c: Chain, a: Action): Chain
    requires Possible(c, a)
  {
    match a
    case Declare(v) => c[0 := c[0].(vars := c[0].vars + [v])]
    case EnterBlock => c[0 := c[0].(blocks := [Block(|c[0].vars|, false)] + c[0].blocks)]
    case LeaveBlock => c[0 := Left(c[0])]
    case OpenFunc(params) => [Func(params, [], [Block(0, false)], {})] + c
    case CloseFunc => c[1..]
    case Use(n) => Resolve(c, n, true).0
  }

  /** `open_mainfunc` */
  function Main(): Chain {
    [Func([], [UpvalDesc(ENVNAME, true, 0)], [Block(0, false)], {})]
  }

  lemma MainOk()
    ensures ChainOk(Main())
  {
    var c := Main();
    assert c[0].ups[0].name == ENVNAME;
    assert UpvalOk(c, 0);
    assert c[1..] == [];
  }

  lemma {:induction false} MoreVars(blocks: seq<Block>, n: nat, r: nat)
    requires r < n
    ensures BlockOf([Block(n, false)] + blocks, r) == 1 + BlockOf(blocks, r)
  {
    assert ([Block(n, false)] + blocks)[1..] == blocks;
  }

  lemma InnerOk(c: Chain, f: Func)
    requires ChainOk(c) && c != [] && BlocksOk(f) && CapturedOk(f) && f.ups == c[0].ups
    ensures ChainOk(c[0 := f])
  {
    var c' := c[0 := f];
    assert c'[1..] == c[1..];
    forall i | 0 <= i < |f.ups|
      ensures UpvalOk(c', i)
    {
      assert UpvalOk(c, i);
    }
  }

  /** Every action of the parser keeps all upvalues in order. */
  lemma ActOk(c: Chain, a: Action)
    requires ChainOk(c) && Possible(c, a)
    ensures ChainOk(Act(c, a))
  {
    match a
    case Declare(v) => InnerOk(c, c[0].(vars := c[0].vars + [v]));
    case EnterBlock =>
      var f := c[0].(blocks := [Block(|c[0].vars|, false)] + c[0].blocks);
      forall r | r in f.captured
        ensures BlockOf(f.blocks, r) < |f.blocks| && f.blocks[BlockOf(f.blocks, r)].upval
      {
        MoreVars(c[0].blocks, |c[0].vars|, r);
      }
      InnerOk(c, f);
    case LeaveBlock =>
      var f := Left(c[0]);
      forall r | r in f.captured
        ensures r < |f.vars| && BlockOf(f.blocks, r) < |f.blocks| && f.blocks[BlockOf(f.blocks, r)].upval
      {
        assert BlockOf(c[0].blocks, r) == 1 + BlockOf(f.blocks, r);
      }
      InnerOk(c, f);
    case OpenFunc(params) =>
      var c' := Act(c, a);
      assert c'[1..] == c;
    case CloseFunc =>
    case Use(n) => ResolveOk(c, n, true);
  }

  function Parse(c: Chain, actions: seq<Action>): Chain
    decreases |actions|
  {
    if actions == [] || !Possible(c, actions[0]) then c else Parse(Act(c, actions[0]), actions[1..])
  }

  /** At every point of every parse, each name resolves to the variable of its innermost declaration in
      scope, or to a global exactly if there is none. */
  lemma {:induction false} ParseResolves(c: Chain, actions: seq<Action>, n: string)
    requires ChainOk(c)
    ensures var now := Parse(c, actions);
            var (after, r) := Resolve(now, n, true);
            ChainOk(now) && ChainOk(after) && Names(now, n, after, r, true)
    decreases |actions|
  {
    if actions == [] || !Possible(c, actions[0]) {
      ResolveOk(c, n, true);
    } else {
      ActOk(c, actions[0]);
      ParseResolves(Act(c, actions[0]), actions[1..], n);
    }
  }

  /** A block with a variable that an inner function uses closes its upvalues when it is left. */
  lemma LeaveCloses(c: Chain, r: nat)
    requires ChainOk(c) && c != [] && |c[0].blocks| > 1 && r in c[0].captured && r >= c[0].blocks[0].nactvar
    ensures Closes(c[0])
  {
  }

  // ----- the functions of the parser -----

  class FuncStates {
    var chain: Chain

    constructor ()
      ensures ChainOk(chain) && chain == Main()
    {
      chain := Main();
      MainOk();
    }

    /** `searchvar` */
    method SearchVar(d: nat, n: string) returns (v: int)
      requires d < |chain|
      ensures v == VarIn(chain[d].vars, n)
    {
      var vars := chain[d].vars;
      var i := |vars| - 1;
      assert vars[..|vars|] == vars;
      while i >= 0
        invariant -1 <= i < |vars| && VarIn(vars, n) == VarIn(vars[..i + 1], n)
      {
        assert vars[..i + 1][..i] == vars[..i];
        if vars[i].name == n { return i; }
        i := i - 1;
      }
      return -1;
    }

    method SearchUpvalue(d: nat, n: string) returns (u: int)
      requires d < |chain|
      ensures u == UpvalIn(chain[d].ups, n, 0)
    {
      var ups := chain[d].ups;
      var i := 0;
      while i < |ups|
        invariant 0 <= i <= |ups| && UpvalIn(ups, n, 0) == UpvalIn(ups, n, i)
      {
        if ups[i].name == n { return i; }
        i := i + 1;
      }
      return -1;
    }

    method MarkUpval(d: nat, level: nat)
      requires d < |chain| && BlocksOk(chain[d])
      modifies this
      ensures chain == old(chain)[d := Mark(old(chain)[d], level)]
    {
      var f := chain[d];
      var b := 0;
      BlockInside(f.blocks, level);
      assert f.blocks[0..] == f.blocks;
      while f.blocks[b].nactvar > level
        invariant 0 <= b < |f.blocks| && BlockOf(f.blocks, level) == b + BlockOf(f.blocks[b..], level)
        decreases |f.blocks| - b
      {
        assert f.blocks[b..][1..] == f.blocks[b + 1..];
        b := b + 1;
      }
      chain := chain[d := f.(blocks := f.blocks[b := f.blocks[b].(upval := true)], captured := f.captured + {level})];
    }

    /** `newupvalue` */
    method NewUpvalue(d: nat, n: string, v: Resolved) returns (u: nat)
      requires d < |chain| && v != VVOID
      modifies this
      ensures u == |old(chain)[d].ups|
      ensures chain == old(chain)[d := old(chain)[d].(ups := old(chain)[d].ups
                         + [if v.VLOCAL? then UpvalDesc(n, true, v.reg) else UpvalDesc(n, false, v.up)])]
    {
      var f := chain[d];
      u := |f.ups|;
      chain := chain[d := f.(ups := f.ups + [UpvalDesc(n, v.VLOCAL?, if v.VLOCAL? then v.reg else v.up)])];
    }

    /** `singlevaraux`, for the function at depth `d` */
    method SingleVarAux(d: nat, n: string, base: bool) returns (r: Resolved)
      requires d <= |chain| && ChainOk(chain[d..])
      modifies this
      ensures |chain| == |old(chain)| && chain[..d] == old(chain)[..d]
      ensures (chain[d..], r) == Resolve(old(chain)[d..], n, base)
      decreases |chain| - d
    {
      if d == |chain| { return VVOID; }
      ghost var c0 := chain;
      assert c0[d..][0] == c0[d] && c0[d..][1..] == c0[d + 1..];
      var v := SearchVar(d, n);
      if v >= 0 {
        if !base {
          MarkUpval(d, v);
          assert chain[d..] == c0[d..][0 := Mark(c0[d], v)];
        }
        return VLOCAL(v);
      }
      var idx := SearchUpvalue(d, n);
      if idx < 0 {
        var outer := SingleVarAux(d + 1, n, false);
        ghost var c1 := chain;
        ResolveOuter(c0[d..], n, c1[d + 1..], outer);
        hide Resolve, ChainOk;
        SplitAt(c0, c1, d);
        if outer == VVOID {
          VoidSame(c0[d + 1..], n, false);
          assert chain == c0[..d + 1] + c0[d + 1..] == c0;
          return VVOID;
        }
        idx := NewUpvalue(d, n, outer);
        assert chain[d..] == [WithUpval(c0[d], Desc(n, outer))] + c1[d + 1..];
        assert chain[..d] == c1[..d] == c0[..d];
      }
      return VUPVAL(idx);
    }
  }

  lemma SplitAt(c0: Chain, c1: Chain, d: nat)
    requires d < |c0| == |c1| && c1[..d + 1] == c0[..d + 1]
    ensures c1[d] == c0[d] && c1[..d] == c0[..d] && c1 == c0[..d + 1] + c1[d + 1..]
  {
    assert c1[d] == c1[..d + 1][d] && c0[d] == c0[..d + 1][d];
    assert c1[..d] == c1[..d + 1][..d];
  }

  lemma {:induction false} VoidSame(c: Chain, n: string, base: bool)
    ensures Resolve(c, n, base).1 == VVOID ==> Resolve(c, n, base).0 == c
  {
  }
}

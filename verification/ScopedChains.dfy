/** What the translation of a program keeps: names lead to their declarations, and later points of a function
    agree with earlier ones. */
module ScopedChains {
  import opened Basics
  import opened Scoping
  import opened ScopedPrograms
  import opened ScopedCode

  predicate LevelsOk(c: Chain) {
    forall i :: 0 <= i < |Flat(c)| ==> Flat(c)[i].id == i
  }

  predicate Proper(c: Chain) {
    c != [] && ChainOk(c) && LevelsOk(c) && c[0].blocks != []
  }

  /** A later point of the same block. */
  ghost predicate Later(c: Chain, c': Chain) {
    && |c'| == |c| > 0
    && c[0].vars <= c'[0].vars && c[0].ups <= c'[0].ups && c[0].captured <= c'[0].captured
    && SameBlocks(c[0].blocks, c'[0].blocks) && Same(c[1..], c'[1..])
  }

  lemma LaterThrough(a: Chain, b: Chain, c: Chain)
    requires Later(a, b) && Later(b, c)
    ensures Later(a, c)
  {
    SameThrough(a[1..], b[1..], c[1..]);
  }

  lemma SameThrough(a: Chain, b: Chain, c: Chain)
    requires Same(a, b) && Same(b, c)
    ensures Same(a, c)
  {
    forall d | 0 <= d < |a|
      ensures c[d].vars == a[d].vars && a[d].ups <= c[d].ups && a[d].captured <= c[d].captured
      ensures SameBlocks(a[d].blocks, c[d].blocks)
    {
      assert SameBlocks(a[d].blocks, b[d].blocks) && SameBlocks(b[d].blocks, c[d].blocks);
    }
  }

  lemma SameLater(c: Chain, c': Chain)
    requires Same(c, c') && c != []
    ensures Later(c, c')
  {
    assert SameBlocks(c[0].blocks, c'[0].blocks);
    assert forall d :: 0 <= d < |c[1..]| ==> c[1..][d] == c[d + 1] && c'[1..][d] == c'[d + 1];
  }

  lemma {:induction false} SameFlat(c: Chain, c': Chain)
    requires Same(c, c')
    ensures Flat(c') == Flat(c)
    decreases |c|
  {
    if c != [] {
      SameLater(c, c');
      SameFlat(c[1..], c'[1..]);
    }
  }

  // ----- every step of the translation -----

  lemma ProperActs(c: Chain, c': Chain, a: Action)
    requires Proper(c) && Possible(c, a) && c' == Act(c, a) && LevelsOk(c') && c' != []
    ensures Proper(c')
  {
    ActOk(c, a);
    assert FuncOk(c');
  }

  lemma OpenedOk(c: Chain, p: string)
    requires Proper(c)
    ensures Proper(Opened(c, p)) && Flat(Opened(c, p)) == Flat(c) + [NewVar(c, p)] && Opened(c, p)[0].captured == {}
    ensures Opened(c, p)[0].ups == [] && Opened(c, p)[0].vars == [NewVar(c, p)]
    ensures Opened(c, p)[0].blocks[0].nactvar == 0
  {
    assert Flat(Opened(c, p)) == Flat(c) + [NewVar(c, p)];
    ProperActs(c, Opened(c, p), OpenFunc([NewVar(c, p)]));
  }

  lemma DeclareOk(c: Chain, n: string)
    requires Proper(c)
    ensures var c' := Act(c, Declare(NewVar(c, n)));
      && Proper(c') && Later(c, c') && Flat(c') == Flat(c) + [NewVar(c, n)] && c'[0].vars == c[0].vars + [NewVar(c, n)]
      && c'[1..] == c[1..] && c'[0].captured == c[0].captured
  {
    var c' := Act(c, Declare(NewVar(c, n)));
    assert c'[1..] == c[1..];
    assert Flat(c') == Flat(c) + [NewVar(c, n)];
    ProperActs(c, c', Declare(NewVar(c, n)));
    SameSelf(c[1..]);
  }

  lemma SameSelf(c: Chain)
    ensures Same(c, c)
  {
  }

  lemma EnteredOk(c: Chain)
    requires Proper(c)
    ensures var c' := Entered(c);
      Proper(c') && Flat(c') == Flat(c) && c'[0].vars == c[0].vars && c'[0].ups == c[0].ups &&
          c'[0].captured == c[0].captured
      && c'[0].blocks == [Scoping.Block(|c[0].vars|, false)] + c[0].blocks
  {
    var c' := Entered(c);
    assert c'[1..] == c[1..];
    assert Flat(c') == Flat(c);
    ProperActs(c, c', EnterBlock);
  }

  /** The block is left: the chain is a later point of the block around it. */
  lemma LeftOk(c: Chain, c2: Chain)
    requires Proper(c) && Proper(c2) && Later(Entered(c), c2)
    ensures |c2[0].blocks| > 1 && c2[0].blocks[0].nactvar == |c[0].vars|
    ensures var c3 := Act(c2, LeaveBlock);
      && Proper(c3) && Same(c, c3) && c3[0].ups == c2[0].ups && c3[1..] == c2[1..]
      && c3[0].captured == Below(c2[0].captured, |c[0].vars|)
  {
    EnteredOk(c);
    var c1 := Entered(c);
    var c3 := Act(c2, LeaveBlock);
    assert forall r :: r in c[0].captured ==> r < |c[0].vars| by { assert FuncOk(c); }
    assert c3[1..] == c2[1..] && c1[1..] == c[1..] && c3[0] == Left(c2[0]);
    LeftFunc(c[0], c1[0], c2[0]);
    hide ChainOk, LevelsOk, Act, Entered, Left;
    SameTail(c, c3);
    SameFlat(c, c3);
    ProperActs(c2, c3, LeaveBlock);
  }

  lemma LeftFunc(f: Func, f1: Func, f2: Func)
    requires f1.vars == f.vars && f1.ups == f.ups && f1.captured == f.captured
    requires f1.blocks == [Scoping.Block(|f.vars|, false)] + f.blocks && f.blocks != []
    requires f1.vars <= f2.vars && f1.ups <= f2.ups && f1.captured <= f2.captured && SameBlocks(f1.blocks, f2.blocks)
    requires forall r :: r in f.captured ==> r < |f.vars|
    ensures |f2.blocks| > 1 && f2.blocks[0].nactvar == |f.vars|
    ensures var f3 := Left(f2);
      && f3.vars == f.vars && f.ups <= f3.ups && f.captured <= f3.captured && SameBlocks(f.blocks, f3.blocks)
  {
    assert f1.blocks[0].nactvar == |f.vars|;
    assert forall i :: 0 <= i < |f.blocks| ==> f.blocks[i] == f1.blocks[i + 1];
  }

  lemma SameTail(c: Chain, c3: Chain)
    requires |c| == |c3| > 0 && Same(c[1..], c3[1..])
    requires c3[0].vars == c[0].vars && c[0].ups <= c3[0].ups && c[0].captured <= c3[0].captured
    requires SameBlocks(c[0].blocks, c3[0].blocks)
    ensures Same(c, c3)
  {
    forall d | 0 <= d < |c|
      ensures c3[d].vars == c[d].vars && c[d].ups <= c3[d].ups && c[d].captured <= c3[d].captured
      ensures SameBlocks(c[d].blocks, c3[d].blocks)
    {
      if d > 0 { assert c3[d] == c3[1..][d - 1] && c[d] == c[1..][d - 1]; }
    }
  }

  lemma ResolvedOk(c: Chain, n: string)
    requires Proper(c)
    ensures var c' := Resolve(c, n, true).0; Proper(c') && Same(c, c')
  {
    var c' := Resolve(c, n, true).0;
    ResolveSame(c, n, true);
    ResolveOk(c, n, true);
    SameFlat(c, c');
    assert SameBlocks(c[0].blocks, c'[0].blocks);
  }

  lemma {:induction false} TranslateOk(c: Chain, e: Expr)
    requires Proper(c)
    ensures var c' := Translate(c, e).0; Proper(c') && Same(c, c')
    decreases e
  {
    hide ChainOk, LevelsOk, Same;
    match e
    case Const(_) => SameSelf(c);
    case Name(n) => ResolvedOk(c, n);
    case Function(p, body) =>
      OpenedOk(c, p);
      TranslateAllOk(Opened(c, p), body);
      ClosedOk(c, p, TranslateAll(Opened(c, p), body).0);
  }

  /** `close_func` */
  lemma ClosedOk(c: Chain, p: string, c2: Chain)
    requires Proper(c) && Proper(c2) && Later(Opened(c, p), c2)
    ensures Proper(c2[1..]) && Same(c, c2[1..])
  {
    OpenedOk(c, p);
    SameFlat(c, c2[1..]);
    assert SameBlocks(c[0].blocks, c2[1..][0].blocks);
  }

  lemma TranslateBlockOk(c: Chain, body: seq<Stmt>)
    requires Proper(c)
    ensures var c1 := Entered(c); var (c2, code) := TranslateAll(c1, body);
      var (c3, code', close, level) := TranslateBlock(c, body);
      && Proper(c1) && Proper(c2) && Later(c1, c2) && Proper(c3) && Same(c, c3)
      && code' == code && level == |c[0].vars| && c3[0].captured == Below(c2[0].captured, |c[0].vars|)
      && c3[0].ups == c2[0].ups && c3[1..] == c2[1..] && |c2[0].blocks| > 1 && close == Closes(c2[0])
    decreases body, 1
  {
    hide ChainOk, LevelsOk, Same, Later;
    EnteredOk(c);
    TranslateAllOk(Entered(c), body);
    LeftOk(c, TranslateAll(Entered(c), body).0);
  }

  lemma {:induction false} TranslateStepOk(c: Chain, stmt: Stmt)
    requires Proper(c)
    ensures var c' := TranslateStep(c, stmt).0; Proper(c') && Later(c, c')
    decreases stmt
  {
    hide ChainOk, LevelsOk, Same, Later;
    match stmt
    case Local(n, e) =>
      TranslateOk(c, e);
      var c1 := Translate(c, e).0;
      SameLater(c, c1);
      DeclareOk(c1, n);
      LaterThrough(c, c1, Act(c1, Declare(NewVar(c1, n))));
    case Assign(n, e) =>
      ResolvedOk(c, n);
      var c1 := Resolve(c, n, true).0;
      TranslateOk(c1, e);
      SameThrough(c, c1, Translate(c1, e).0);
      SameLater(c, Translate(c1, e).0);
    case Do(body) =>
      TranslateBlockOk(c, body);
      SameLater(c, TranslateBlock(c, body).0);
    case While(cond, body) =>
      TranslateOk(c, cond);
      var c1 := Translate(c, cond).0;
      TranslateBlockOk(c1, body);
      SameThrough(c, c1, TranslateBlock(c1, body).0);
      SameLater(c, TranslateBlock(c1, body).0);
    case Call(f, arg) =>
      TranslateOk(c, f);
      var c1 := Translate(c, f).0;
      TranslateOk(c1, arg);
      SameThrough(c, c1, Translate(c1, arg).0);
      SameLater(c, Translate(c1, arg).0);
    case Output(e) =>
      TranslateOk(c, e);
      SameLater(c, Translate(c, e).0);
  }

  lemma {:induction false} TranslateAllOk(c: Chain, body: seq<Stmt>)
    requires Proper(c)
    ensures var c' := TranslateAll(c, body).0; Proper(c') && Later(c, c')
    decreases body, 0
  {
    hide ChainOk, LevelsOk, Later;
    if body == [] {
      LaterSelf(c);
    } else {
      TranslateStepOk(c, body[0]);
      var c1 := TranslateStep(c, body[0]).0;
      TranslateAllOk(c1, body[1..]);
      LaterThrough(c, c1, TranslateAll(c1, body[1..]).0);
    }
  }

  lemma LaterSelf(c: Chain)
    requires Proper(c)
    ensures Later(c, c)
  {
    SameSelf(c);
    SameLater(c, c);
  }

  // ----- where names lead -----

  /** The environment at a point of the program has the active variables. */
  predicate Fits(env: Env, c: Chain) { Named(env, Flat(c)) }

  predicate Named(env: Env, vars: seq<Var>) {
    |env| == |vars| && forall i :: 0 <= i < |env| ==> env[i].0 == vars[i].name
  }

  lemma NamedParts(env: Env, a: seq<Var>, b: seq<Var>)
    requires Named(env, a + b)
    ensures Named(env[..|a|], a) && Named(env[|a|..], b)
  {
    assert forall i :: 0 <= i < |a| ==> (a + b)[i] == a[i];
    assert forall i :: 0 <= i < |b| ==> (a + b)[|a| + i] == b[i];
  }

  lemma {:induction false} FindSplit(a: Env, b: Env, n: string)
    ensures Find(a + b, n) == if Find(b, n) >= 0 then |a| + Find(b, n) else Find(a, n)
    decreases |b|
  {
    if b == [] {
      assert a + b == a;
    } else {
      assert (a + b)[..|a + b| - 1] == a + b[..|b| - 1];
      FindSplit(a, b[..|b| - 1], n);
    }
  }

  lemma {:induction false} FindVar(env: Env, vars: seq<Var>, n: string)
    requires Named(env, vars)
    ensures Find(env, n) == VarIn(vars, n)
    decreases |env|
  {
    if env != [] { FindVar(env[..|env| - 1], vars[..|vars| - 1], n); }
  }

  lemma FindOuter(env: Env, c: Chain, n: string)
    requires c != [] && Fits(env, c)
    ensures var outer := |Flat(c[1..])|; var v := VarIn(c[0].vars, n);
      && Find(env, n) == (if v >= 0 then outer + v else Find(env[..outer], n)) && Fits(env[..outer], c[1..])
  {
    var outer := Flat(c[1..]);
    NamedParts(env, outer, c[0].vars);
    hide Named, Flat;
    assert env == env[..|outer|] + env[|outer|..];
    FindSplit(env[..|outer|], env[|outer|..], n);
    FindVar(env[|outer|..], c[0].vars, n);
  }

  /** The environment and the parser agree about which declaration a name means. */
  lemma {:induction false} FindLexical(env: Env, c: Chain, n: string)
    requires c != [] && LevelsOk(c) && Fits(env, c)
    ensures Lexical(c, n) == if Find(env, n) >= 0 then Some(Find(env, n) as nat) else None
    decreases |c|
  {
    FindOuter(env, c, n);
    OuterLevels(c);
    hide LevelsOk, Fits;
    var a := env[..|Flat(c[1..])|];
    if |c| == 1 {
      assert c[1..] == [];
      OnlyEnv(a, n);
    } else {
      FindLexical(a, c[1..], n);
    }
  }

  lemma OnlyEnv(env: Env, n: string)
    requires Fits(env, [])
    ensures Find(env, n) == if n == ENVNAME then 0 else -1
  {
    assert env == [env[0]] && env[..0] == [];
  }

  lemma OuterLevels(c: Chain)
    requires LevelsOk(c) && c != []
    ensures LevelsOk(c[1..]) && forall i :: 0 <= i < |c[0].vars| ==> c[0].vars[i].id == |Flat(c[1..])| + i
  {
    var outer := Flat(c[1..]);
    assert forall i :: 0 <= i < |outer| ==> Flat(c)[i] == outer[i];
    assert forall i :: 0 <= i < |c[0].vars| ==> Flat(c)[|outer| + i] == c[0].vars[i];
  }

  lemma LaterDenotes(c: Chain, c': Chain, i: nat)
    requires Later(c, c') && i < |c[0].ups| && Denotes(c, i).Some?
    ensures Denotes(c', i) == Denotes(c, i)
  {
    assert c'[0].ups[i] == c[0].ups[i];
    if |c| > 1 {
      assert c'[1].vars == c[1].vars by { assert c'[1..][0].vars == c[1..][0].vars; }
      if !c[0].ups[i].instack { GrowsDenotes(c[1..], c'[1..], c[0].ups[i].idx); }
    }
  }

  // ----- functions without inner functions -----

  lemma {:induction false} NoFunctionsStep(c: Chain, stmt: Stmt)
    requires Proper(c) && !InstrHasFunctions(TranslateStep(c, stmt).1)
    ensures TranslateStep(c, stmt).0[0].captured <= c[0].captured
    decreases stmt
  {
    match stmt
    case Local(n, e) => NoFunction(c, e);
    case Assign(n, e) =>
      ResolvedOk(c, n);
      NoFunction(Resolve(c, n, true).0, e);
    case Do(body) => NoFunctionsBlock(c, body);
    case While(cond, body) =>
      NoFunction(c, cond);
      TranslateOk(c, cond);
      NoFunctionsBlock(Translate(c, cond).0, body);
    case Call(f, arg) =>
      NoFunction(c, f);
      TranslateOk(c, f);
      NoFunction(Translate(c, f).0, arg);
    case Output(e) => NoFunction(c, e);
  }

  lemma NoFunction(c: Chain, e: Expr)
    requires Proper(c) && !Translate(c, e).1.NewClosure?
    ensures Translate(c, e).0[0].captured == c[0].captured
  {
  }

  lemma NoFunctionsBlock(c: Chain, body: seq<Stmt>)
    requires Proper(c) && !HasFunctions(TranslateBlock(c, body).1)
    ensures TranslateBlock(c, body).0[0].captured <= c[0].captured
    decreases body, 1
  {
    EnteredOk(c);
    TranslateBlockOk(c, body);
    NoFunctionsAll(Entered(c), body);
  }

  lemma {:induction false} NoFunctionsAll(c: Chain, body: seq<Stmt>)
    requires Proper(c) && !HasFunctions(TranslateAll(c, body).1)
    ensures TranslateAll(c, body).0[0].captured <= c[0].captured
    decreases body, 0
  {
    if body != [] {
      var (c1, i) := TranslateStep(c, body[0]);
      var (c2, code) := TranslateAll(c1, body[1..]);
      assert ([i] + code)[1..] == code;
      TranslateStepOk(c, body[0]);
      NoFunctionsStep(c, body[0]);
      NoFunctionsAll(c1, body[1..]);
    }
  }
}

/** Running the translated program gives what the program means. */
module ScopedRuns {
  import opened Basics
  import S = Scoping
  import opened ScopedPrograms
  import opened ScopedCode
  import opened ScopedChains
  import opened ScopedMachine
  import U = Upvalues
  import opened ScopedPlaces

  // ----- closures -----

  /** A new closure captures only registers that its descriptors name. */
  lemma {:induction false} PushOpens(s: U.State, descs: seq<U.Desc>, encup: seq<U.UpId>, base: nat)
    requires U.Ok(s) && U.DescsOk(s, descs, encup, base)
    ensures forall i :: OpenSlot(U.Push(s, descs, encup, base).0, i) ==>
              OpenSlot(s, i) || exists j :: 0 <= j < |descs| && descs[j].instack && i == base + descs[j].idx
    decreases |descs|
  {
    if descs != [] {
      var n := |descs| - 1;
      hide U.Ok, U.Find;
      U.PrefixOk(s, descs, encup, base);
      U.PushOk(s, descs[..n], encup, base);
      PushOpens(s, descs[..n], encup, base);
      var s1 := U.Push(s, descs[..n], encup, base).0;
      var s' := U.Push(s, descs, encup, base).0;
      if descs[n].instack { FindOpens(s1, base + descs[n].idx); }
      forall i | OpenSlot(s', i)
        ensures OpenSlot(s, i) || exists j :: 0 <= j < |descs| && descs[j].instack && i == base + descs[j].idx
      {
        if OpenSlot(s1, i) && !OpenSlot(s, i) {
          var j :| 0 <= j < n && descs[..n][j].instack && i == base + descs[..n][j].idx;
          assert descs[j] == descs[..n][j];
        }
      }
    }
  }

  lemma FindOpens(s: U.State, level: nat)
    requires U.Ok(s) && level < |s.stack|
    ensures forall i :: OpenSlot(U.Find(s, level).0, i) ==> OpenSlot(s, i) || i == level
  {
    U.FindOk(s, level);
    var (s', x) := U.Find(s, level);
    hide U.Ok, U.Find;
    forall i | OpenSlot(s', i) && i != level
      ensures OpenSlot(s, i)
    {
      var y :| y in s'.ups && s'.ups[y].Open? && s'.ups[y].slot == i;
      assert y in s.ups && s.ups[y] == s'.ups[y];
    }
  }

  /** What is needed to create a closure for the function that has just been parsed. */
  lemma DescsFit(m: Places, s: U.State, env: Env, c2: S.Chain, base: nat, ups: seq<U.UpId>)
    requires |c2| > 1 && Proper(c2) && UpsFit(m, s, env, c2[1..], ups) && base + |c2[1].vars| <= |s.stack|
    ensures U.DescsOk(s, Descs(c2[0].ups), ups, base)
  {
    forall i | 0 <= i < |c2[0].ups|
      ensures var u := c2[0].ups[i]; if u.instack then base + u.idx < |s.stack| else u.idx < |ups|
    {
      UpvalHere(c2, i);
    }
  }

  lemma ClosureFits(m: Places, store: Store, s: U.State, env: Env, c2: S.Chain, base: nat, ups: seq<U.UpId>)
    requires |c2| > 1 && Proper(c2) && UpsFit(m, s, env, c2[1..], ups) && Frame(m, s, env, c2[1..], base)
    requires Good(m, store, s)
    ensures var (s', ids) := U.Push(s, Descs(c2[0].ups), ups, base);
      && Good(m, store, s') && Kept(m, s, m, s') && s'.stack == s.stack
      && Opens(s, s', base, c2[1].captured) && UpsFit(m, s', env, c2, ids)
  {
    hide U.Push, U.Ok, SameValue, PlacesOk;
    var descs := Descs(c2[0].ups);
    DescsFit(m, s, env, c2, base, ups);
    U.PushOk(s, descs, ups, base);
    PushOpens(s, descs, ups, base);
    var (s', ids) := U.Push(s, descs, ups, base);
    SamePlaces(m, s, s');
    assert Kept(m, s, m, s');
    ValuesKept(m, store, s, m, s') by { SameAt(m, s, s'); }
    NewOpens(s, s', c2, base);
    forall i | 0 <= i < |c2[0].ups|
      ensures S.Denotes(c2, i).Some? && S.Denotes(c2, i).value < |env|
      ensures Refers(m, s', ids[i], env[S.Denotes(c2, i).value].1)
    {
      assert descs[i] == U.Desc(c2[0].ups[i].instack, c2[0].ups[i].idx);
      if c2[0].ups[i].instack {
        OwnVariable(m, s, s', env, c2, base, i, ids[i]);
      } else {
        OuterVariable(m, s, s', env, c2, i, ups);
      }
    }
  }

  lemma SamePlaces(m: Places, s: U.State, s': U.State)
    requires PlacesOk(m, s) && s'.stack == s.stack && forall y :: y in s.ups ==> y in s'.ups && s'.ups[y] == s.ups[y]
    ensures PlacesOk(m, s')
  {
  }

  lemma SameAt(m: Places, s: U.State, s': U.State)
    requires PlacesOk(m, s) && s'.stack == s.stack && forall y :: y in s.ups ==> y in s'.ups && s'.ups[y] == s.ups[y]
    ensures forall a :: a in m ==> At(s', m[a]) == At(s, m[a])
  {
  }

  lemma NewOpens(s: U.State, s': U.State, c2: S.Chain, base: nat)
    requires |c2| > 1 && Proper(c2)
    requires forall i :: OpenSlot(s', i) ==>
      OpenSlot(s, i) || exists j ::
          0 <= j < |c2[0].ups| && Descs(c2[0].ups)[j].instack && i == base + Descs(c2[0].ups)[j].idx
    ensures Opens(s, s', base, c2[1].captured)
  {
    hide OpenSlot;
    forall j | 0 <= j < |c2[0].ups| && c2[0].ups[j].instack
      ensures c2[0].ups[j].idx in c2[1].captured
    {
      assert S.UpvalOk(c2, j);
    }
  }

  /** The descriptor names a register of the enclosing function. */
  lemma OwnVariable(m: Places, s: U.State, s': U.State, env: Env, c2: S.Chain, base: nat, i: nat, x: U.UpId)
    requires |c2| > 1 && Proper(c2) && Frame(m, s, env, c2[1..], base) && i < |c2[0].ups| && c2[0].ups[i].instack
    requires x in s'.ups && s'.ups[x] == U.Open(base + c2[0].ups[i].idx)
    ensures S.Denotes(c2, i).Some? && S.Denotes(c2, i).value < |env| && Refers(m, s', x, env[S.Denotes(c2, i).value].1)
  {
    UpvalHere(c2, i);
    OuterLevels(c2);
    OuterLevels(c2[1..]);
    var outer, r := |Flat(c2[1..][1..])|, c2[0].ups[i].idx;
    assert c2[1..][0].vars[r].id == outer + r;
    assert env[outer + r].1 in m && m[env[outer + r].1] == InStack(base + r);
  }

  /** The descriptor names an upvalue of the enclosing function. */
  lemma OuterVariable(m: Places, s: U.State, s': U.State, env: Env, c2: S.Chain, i: nat, ups: seq<U.UpId>)
    requires |c2| > 1 && Proper(c2) && UpsFit(m, s, env, c2[1..], ups) && Kept(m, s, m, s')
    requires i < |c2[0].ups| && !c2[0].ups[i].instack
    ensures S.Denotes(c2, i).Some? && S.Denotes(c2, i).value < |env| && c2[0].ups[i].idx < |ups|
    ensures Refers(m, s', ups[c2[0].ups[i].idx], env[S.Denotes(c2, i).value].1)
  {
    UpvalHere(c2, i);
    assert S.Denotes(c2, i) == S.Denotes(c2[1..], c2[0].ups[i].idx);
  }

  // ----- operands -----

  /** What holds at a point of an activation. `c` is the parser's state there, `end` that at the end of the block. */
  ghost predicate Here(m: Places, store: Store, s: U.State, env: Env, c: S.Chain, end: S.Chain, base: nat,
                       ups: seq<U.UpId>)
  {
    && Proper(c) && end != [] && Good(m, store, s) && Frame(m, s, env, c, base) && UpsFit(m, s, env, end, ups)
    && BlockOpens(s, base, c[0].blocks[0].nactvar, end[0].captured)
  }

  /** The operand has the value of the expression. */
  ghost predicate Fetched(m: Places, store: Store, s: U.State, env: Env, end: S.Chain, base: nat, rv: Maybe,
                          s': U.State, v: Option<U.Value>)
    requires end != []
  {
    && Good(m, store, s') && Kept(m, s, m, s') && s'.stack == s.stack && Opens(s, s', base, end[0].captured)
    && match rv case Nothing => v == None case Just(r) => v.Some? && SameValue(m, s', r, v.value)
  }

  lemma FetchOk(m: Places, store: Store, s: U.State, env: Env, c: S.Chain, end: S.Chain, base: nat, ups: seq<U.UpId>,
                e: Expr)
    requires Here(m, store, s, env, c, end, base, ups) && Later(Translate(c, e).0, end)
    ensures var (s', v) := Fetch(s, base, ups, Translate(c, e).1);
        Fetched(m, store, s, env, end, base, Eval(store, env, e), s', v)
  {
    KeptSelf(m, s);
    match e
    case Const(_) =>
    case Name(n) => NameOk(m, store, s, env, c, end, base, ups, n);
    case Function(p, body) => FunctionOk(m, store, s, env, c, end, base, ups, p, body);
  }

  lemma NameOk(m: Places, store: Store, s: U.State, env: Env, c: S.Chain, end: S.Chain, base: nat, ups: seq<U.UpId>,
               n: string)
    requires Here(m, store, s, env, c, end, base, ups) && Later(Translate(c, Name(n)).0, end)
    ensures var (s', v) := Fetch(s, base, ups, Translate(c, Name(n)).1);
      Fetched(m, store, s, env, end, base, Eval(store, env, Name(n)), s', v)
  {
    KeptSelf(m, s);
    HerePoint(m, store, s, env, c, end, base, ups);
    NameLeads(m, store, s, env, c, end, base, ups, n);
    NameValue(m, store, s, env, c, base, ups, n, S.Resolve(c, n, true).1);
    hide Here, SameValue, Fetch, Translate, Eval, Good, Kept, S.Resolve;
  }

  lemma NameValue(m: Places, store: Store, s: U.State, env: Env, c: S.Chain, base: nat, ups: seq<U.UpId>, n: string,
                  r: S.Resolved)
    requires c != [] && c[0].blocks != [] && Good(m, store, s) && r == S.Resolve(c, n, true).1
    requires Leads(m, s, env, base, ups, n, r)
    ensures var (s', v) := Fetch(s, base, ups, Translate(c, Name(n)).1);
      && s' == s
      && match Eval(store, env, Name(n))
         case Nothing => v == None
         case Just(x) => v.Some? && SameValue(m, s, x, v.value)
  {
    hide SameValue, U.Ok, S.Resolve;
    match r
    case VVOID =>
    case VLOCAL(v) =>
    case VUPVAL(u) => RefersReads(m, store, s, ups[u], env[Find(env, n)].1);
  }

  /** What a name was resolved to is where the variable is that the name means. */
  ghost predicate Leads(m: Places, s: U.State, env: Env, base: nat, ups: seq<U.UpId>, n: string, r: S.Resolved) {
    var i := Find(env, n);
    match r
    case VVOID => i < 0
    case VLOCAL(v) => i >= 0 && env[i].1 in m && m[env[i].1] == InStack(base + v)
    case VUPVAL(u) => i >= 0 && u < |ups| && Refers(m, s, ups[u], env[i].1)
  }

  /** Where the resolution of a name leads. */
  lemma NameLeads(m: Places, store: Store, s: U.State, env: Env, c: S.Chain, end: S.Chain, base: nat,
                  ups: seq<U.UpId>, n: string)
    requires Here(m, store, s, env, c, end, base, ups) && Later(S.Resolve(c, n, true).0, end)
    ensures Good(m, store, s)
    ensures Leads(m, s, env, base, ups, n, S.Resolve(c, n, true).1)
  {
    hide U.Ok, PlacesOk, ValuesOk, S.Resolve;
    S.ResolveOk(c, n, true);
    ResolvedOk(c, n);
    var (c', r) := S.Resolve(c, n, true);
    FindLexical(env, c, n);
    match r
    case VVOID =>
    case VLOCAL(v) =>
      OuterLevels(c);
      assert Find(env, n) == |Flat(c[1..])| + v;
    case VUPVAL(u) =>
      LaterDenotes(c', end, u);
  }

  lemma FunctionOk(m: Places, store: Store, s: U.State, env: Env, c: S.Chain, end: S.Chain, base: nat, ups: seq<U.UpId>,
                   p: string, body: seq<Stmt>)
    requires Here(m, store, s, env, c, end, base, ups) && Later(Translate(c, Function(p, body)).0, end)
    ensures var (s', v) := Fetch(s, base, ups, Translate(c, Function(p, body)).1);
      Fetched(m, store, s, env, end, base, Just(RFun(p, body, env)), s', v)
  {
    hide U.Push, Good, Kept, UpsFit, Later, Same, Here, Proper, Frame, Fits, OpenSlot, Translate, TranslateAll, Fetch;
    FunctionParsed(m, store, s, env, c, end, base, ups, p, body);
    var (c2, code) := TranslateAll(Opened(c, p), body);
    ClosureFits(m, store, s, env, c2, base, ups);
    MadeFunction(m, store, s, env, c, base, ups, p, body);
    var (s', ids) := U.Push(s, Descs(c2[0].ups), ups, base);
    FunctionFetched(s, c, base, ups, p, body);
    MoreOpens(s, s', base, c2[1].captured, end[0].captured);
  }

  lemma FunctionFetched(s: U.State, c: S.Chain, base: nat, ups: seq<U.UpId>, p: string, body: seq<Stmt>)
    requires c != [] && c[0].blocks != []
    ensures var c2 := TranslateAll(Opened(c, p), body).0;
      c2 != [] && Fetch(s, base, ups, Translate(c, Function(p, body)).1).0 == U.Push(s, Descs(c2[0].ups), ups, base).0
  {
    hide U.Push, TranslateAll;
  }

  /** The function has been parsed, and the enclosing one is at a later point. */
  lemma FunctionParsed(m: Places, store: Store, s: U.State, env: Env, c: S.Chain, end: S.Chain, base: nat,
                       ups: seq<U.UpId>, p: string, body: seq<Stmt>)
    requires Here(m, store, s, env, c, end, base, ups) && Later(Translate(c, Function(p, body)).0, end)
    ensures c != [] && c[0].blocks != [] && end != [] && Proper(c) && Fits(env, c) && Good(m, store, s)
    ensures var c2 := TranslateAll(Opened(c, p), body).0;
      && |c2| > 1 && Proper(c2) && UpsFit(m, s, env, c2[1..], ups) && Frame(m, s, env, c2[1..], base)
      && c2[1].captured <= end[0].captured
  {
    hide Good, Kept, UpsFit, Later, Same;
    var c2 := TranslateAll(Opened(c, p), body).0;
    OpenedOk(c, p);
    TranslateAllOk(Opened(c, p), body);
    ClosedOk(c, p, c2);
    SameFlat(c, c2[1..]);
    UpsEarlier(m, s, env, c2[1..], end, ups);
    SameLater(c, c2[1..]);
    KeptSelf(m, s);
    SameFlat(c[1..], c2[1..][1..]);
    FrameMoved(m, s, m, s, env, c, c2[1..], base);
    LaterCaptured(c2[1..], end);
  }

  lemma LaterCaptured(c: S.Chain, end: S.Chain)
    requires Later(c, end)
    ensures c[0].captured <= end[0].captured
  {
  }

  lemma MoreOpens(s: U.State, s': U.State, base: nat, cap: set<nat>, cap': set<nat>)
    requires Opens(s, s', base, cap) && cap <= cap'
    ensures Opens(s, s', base, cap')
  {
    hide OpenSlot;
  }

  lemma MadeFunction(m: Places, store: Store, s: U.State, env: Env, c: S.Chain, base: nat, ups: seq<U.UpId>,
                     p: string, body: seq<Stmt>)
    requires c != [] && c[0].blocks != []
    requires Proper(c) && Fits(env, c)
    requires var c2 := TranslateAll(Opened(c, p), body).0;
      c2 != [] && var (s', ids) := U.Push(s, Descs(c2[0].ups), ups, base); UpsFit(m, s', env, c2, ids)
    ensures var (s', v) := Fetch(s, base, ups, Translate(c, Function(p, body)).1);
      v.Some? && SameValue(m, s', RFun(p, body, env), v.value)
  {
    hide Proper, Fits, UpsFit;
    var (c2, code) := TranslateAll(Opened(c, p), body);
    var (s', ids) := U.Push(s, Descs(c2[0].ups), ups, base);
    assert FunFits(c, m, s', RFun(p, body, env), Proto(c2[0].ups, code), ids);
  }

  // ----- statements -----

  /** What a part of an activation leaves. */
  ghost predicate Went(m: Places, s: U.State, m': Places, store': Store, s': U.State, base: nat, cap: set<nat>) {
    Good(m', store', s') && Stay(m, m') && Kept(m, s, m', s') && Opens(s, s', base, cap)
  }

  lemma WentThrough(m: Places, s: U.State, m1: Places, store1: Store, s1: U.State, m2: Places, store2: Store,
                    s2: U.State,
                    base: nat, cap: set<nat>)
    requires Went(m, s, m1, store1, s1, base, cap) && Went(m1, s1, m2, store2, s2, base, cap)
    ensures Went(m, s, m2, store2, s2, base, cap)
  {
    hide Good, Kept, Stay, Opens;
    StayThrough(m, m1, m2);
    KeptThrough(m, s, m1, s1, m2, s2);
    OpensThrough(s, s1, s2, base, cap);
  }

  lemma NextHere(m: Places, store: Store, s: U.State, env: Env, c: S.Chain, end: S.Chain, base: nat, ups: seq<U.UpId>,
                 m': Places, store': Store, s': U.State, env': Env, c': S.Chain)
    requires Here(m, store, s, env, c, end, base, ups) && Went(m, s, m', store', s', base, end[0].captured)
    requires Proper(c') && Frame(m', s', env', c', base) && env <= env' && SameBlocks(c[0].blocks, c'[0].blocks)
    ensures Here(m', store', s', env', c', end, base, ups)
  {
    hide Good, Kept, Stay, Opens, BlockOpens, UpsFit, Frame, S.ChainOk, LevelsOk;
    UpsKept(m, s, m', s', env, env', end, ups);
    BlockOpensStay(s, s', base, c[0].blocks[0].nactvar, end[0].captured);
  }

  lemma FetchHere(m: Places, store: Store, s: U.State, env: Env, c: S.Chain, end: S.Chain, base: nat,
                  ups: seq<U.UpId>, e: Expr)
    requires Here(m, store, s, env, c, end, base, ups) && Later(Translate(c, e).0, end)
    ensures var (c1, o) := Translate(c, e); var (s', v) := Fetch(s, base, ups, o);
      && Fetched(m, store, s, env, end, base, Eval(store, env, e), s', v)
      && Went(m, s, m, store, s', base, end[0].captured) && Here(m, store, s', env, c1, end, base, ups)
  {
    hide Good, Kept, Stay, Opens, BlockOpens, UpsFit, Frame, S.ChainOk, LevelsOk, Fetch, Translate, SameValue;
    FetchOk(m, store, s, env, c, end, base, ups, e);
    TranslateOk(c, e);
    KeptSelf(m, s);
    var (c1, o) := Translate(c, e);
    var (s', v) := Fetch(s, base, ups, o);
    SamePoint(m, s, m, s', env, c, c1, base);
    NextHere(m, store, s, env, c, end, base, ups, m, store, s', env, c1);
  }

  lemma SamePoint(m: Places, s: U.State, m': Places, s': U.State, env: Env, c: S.Chain, c': S.Chain, base: nat)
    requires c != [] && Frame(m, s, env, c, base) && Same(c, c') && Stay(m, m') && |s'.stack| == |s.stack|
    ensures Frame(m', s', env, c', base) && SameBlocks(c[0].blocks, c'[0].blocks)
  {
    SameFlat(c, c');
    SameLater(c, c');
    SameFlat(c[1..], c'[1..]);
    hide Frame, Flat, Stay;
    FrameMoved(m, s, m', s', env, c, c', base);
  }

  /** The program and the machine have done the same, and if they have not stopped they are at corresponding points. */
  ghost predicate Agree(m: Places, s: U.State, env: Env, r: Result, q: MResult, m': Places, c': S.Chain, base: nat,
                        cap: set<nat>)
    requires c' != []
  {
    && q.o == r.o && q.out == r.out
    && (r.o == Fine ==> Went(m, s, m', r.store, q.s, base, cap) && Frame(m', q.s, r.env, c', base) && env <= r.env)
  }

  lemma LocalOk(fuel: nat, m: Places, store: Store, s: U.State, out: seq<int>, env: Env, c: S.Chain, end: S.Chain,
                base: nat,
                ups: seq<U.UpId>, n: string, e: Expr) returns (m': Places)
    requires Here(m, store, s, env, c, end, base, ups) && Later(TranslateStep(c, Local(n, e)).0, end)
    ensures var (c', i) := TranslateStep(c, Local(n, e));
      Agree(m, s, env, Step(fuel, store, out, env, Local(n, e)), Execute(fuel, s, out, base, ups, i), m', c', base,
          end[0].captured)
  {
    var c1 := Translate(c, e).0;
    TranslateOk(c, e);
    DeclareOk(c1, n);
    var c' := S.Act(c1, S.Declare(NewVar(c1, n)));
    LaterThrough(c1, c', end);
    FetchHere(m, store, s, env, c, end, base, ups, e);
    var (s1, v) := Fetch(s, base, ups, Translate(c, e).1);
    var rv := Eval(store, env, e);
    m' := m;
    if rv.Just? {
      m' := m[|store| := InStack(|s1.stack|)];
      Pushed(m, store, s1, rv.v, v.value);
      hide Good, Kept, Stay, Opens, Fetch, Translate, SameValue, Later;
      PushedFrame(m, store, s1, env, c1, base, n, v.value);
      PushedWent(m, store, s, s1, m', store + [rv.v], Push(s1, v.value), base, end[0].captured);
    }
  }

  lemma PushedWent(m: Places, store: Store, s: U.State, s1: U.State, m': Places, store': Store, s': U.State,
                   base: nat, cap: set<nat>)
    requires Went(m, s, m, store, s1, base, cap) && Good(m', store', s') && Kept(m, s1, m', s') && Stay(m, m')
    requires forall i :: OpenSlot(s', i) ==> OpenSlot(s1, i)
    ensures Went(m, s, m', store', s', base, cap)
  {
    hide Good, Kept, Stay, OpenSlot;
    assert Opens(s1, s', base, cap);
    WentThrough(m, s, m, store, s1, m', store', s', base, cap);
  }

  /** The new variable is in the next register. */
  lemma PushedFrame(m: Places, store: Store, s: U.State, env: Env, c: S.Chain, base: nat, n: string, v: U.Value)
    requires c != [] && Frame(m, s, env, c, base) && |store| !in m
    ensures var c' := S.Act(c, S.Declare(NewVar(c, n)));
      Frame(m[|store| := InStack(|s.stack|)], Push(s, v), env + [(n, |store|)], c', base)
  {
    var c' := S.Act(c, S.Declare(NewVar(c, n)));
    assert c'[1..] == c[1..];
    assert Flat(c') == Flat(c) + [NewVar(c, n)];
  }

  /** The name is looked up before the expression, and leads to its variable when that has been evaluated. */
  lemma AssignFetched(m: Places, store: Store, s: U.State, env: Env, c: S.Chain, end: S.Chain, base: nat,
                      ups: seq<U.UpId>, n: string, e: Expr)
    requires Here(m, store, s, env, c, end, base, ups) && Later(TranslateStep(c, Assign(n, e)).0, end)
    ensures var (c1, r) := S.Resolve(c, n, true);
      && c1 != [] && c1[0].blocks != []
      && var (c2, o) := Translate(c1, e); var (s1, v) := Fetch(s, base, ups, o);
      && Fetched(m, store, s, env, end, base, Eval(store, env, e), s1, v)
      && Went(m, s, m, store, s1, base, end[0].captured) && c2 != [] && Frame(m, s1, env, c2, base)
      && Leads(m, s, env, base, ups, n, r)
  {
    hide Fetch, Translate, S.Resolve, Same, Later, Kept, Good, Opens, Stay, SameValue, BlockOpens, UpsFit, S.ChainOk;
    hide LevelsOk, Frame;
    var (c1, r) := S.Resolve(c, n, true);
    ResolvedOk(c, n);
    TranslateOk(c1, e);
    var (c2, o) := Translate(c1, e);
    SameLater(c1, c2);
    LaterThrough(c1, c2, end);
    NameLeads(m, store, s, env, c, end, base, ups, n);
    KeptSelf(m, s);
    SamePoint(m, s, m, s, env, c, c1, base);
    WentSelf(m, store, s, base, end[0].captured);
    NextHere(m, store, s, env, c, end, base, ups, m, store, s, env, c1);
    FetchHere(m, store, s, env, c1, end, base, ups, e);
  }

  function AssignResult(store: Store, out: seq<int>, env: Env, n: string, rv: Maybe): Result {
    var i := Find(env, n);
    if rv.Just? && i >= 0 &&
        env[i].1 < |store| then Result(Fine, store[env[i].1 := rv.v], out, env) else Result(Failed, store, out, env)
  }

  function AssignMachine(s: U.State, out: seq<int>, base: nat, ups: seq<U.UpId>, r: S.Resolved,
                         v: Option<U.Value>): MResult
  {
    if v == None then MResult(Failed, s, out)
    else
      match r
      case VVOID => MResult(Failed, s, out)
      case VLOCAL(i) =>
          if base + i < |s.stack| then MResult(Fine, U.WriteSlot(s, base + i, v.value), out)
          else MResult(Failed, s, out)
      case VUPVAL(u) => if u < |ups| then MResult(Fine, U.Write(s, ups[u], v.value), out) else MResult(Failed, s, out)
  }

  lemma AssignSteps(fuel: nat, store: Store, s: U.State, out: seq<int>, env: Env, c: S.Chain, base: nat,
                    ups: seq<U.UpId>, n: string, e: Expr)
    requires c != [] && c[0].blocks != []
    ensures Step(fuel, store, out, env, Assign(n, e)) == AssignResult(store, out, env, n, Eval(store, env, e))
    ensures var (c1, r) := S.Resolve(c, n, true);
      && c1 != [] && c1[0].blocks != []
      && var (c2, o) := Translate(c1, e); var (s1, v) := Fetch(s, base, ups, o);
          var (c', i) := TranslateStep(c, Assign(n, e));
      && c' == c2 && Execute(fuel, s, out, base, ups, i) == AssignMachine(s1, out, base, ups, r, v)
  {
    hide Fetch, Eval, S.Resolve;
    ResolveSame(c, n, true);
  }

  lemma AssignOk(fuel: nat, m: Places, store: Store, s: U.State, out: seq<int>, env: Env, c: S.Chain, end: S.Chain,
                 base: nat,
                 ups: seq<U.UpId>, n: string, e: Expr)
    requires Here(m, store, s, env, c, end, base, ups) && Later(TranslateStep(c, Assign(n, e)).0, end)
    ensures var (c', i) := TranslateStep(c, Assign(n, e));
      Agree(m, s, env, Step(fuel, store, out, env, Assign(n, e)), Execute(fuel, s, out, base, ups, i), m, c', base,
          end[0].captured)
  {
    AssignFetched(m, store, s, env, c, end, base, ups, n, e);
    AssignSteps(fuel, store, s, out, env, c, base, ups, n, e);
    var (c1, r) := S.Resolve(c, n, true);
    var (c2, o) := Translate(c1, e);
    var (s1, v) := Fetch(s, base, ups, o);
    hide Here, Fetch, Translate, TranslateStep, S.Resolve, Later, Went, Refers, Eval, Step, Execute, Frame, Good;
    hide Kept, SameValue, Opens;
    AssignAgrees(m, store, s, s1, out, env, c2, base, ups, n, r, Eval(store, env, e), v, end[0].captured);
  }

  lemma AssignAgrees(m: Places, store: Store, s: U.State, s1: U.State, out: seq<int>, env: Env, c: S.Chain, base: nat,
                     ups: seq<U.UpId>,
                     n: string, r: S.Resolved, rv: Maybe, v: Option<U.Value>, cap: set<nat>)
    requires Went(m, s, m, store, s1, base, cap) && c != [] && Frame(m, s1, env, c, base)
    requires match rv case Nothing => v == None case Just(x) => v.Some? && SameValue(m, s1, x, v.value)
    requires Leads(m, s, env, base, ups, n, r)
    ensures Agree(m, s, env, AssignResult(store, out, env, n, rv), AssignMachine(s1, out, base, ups, r, v), m, c,
        base, cap)
  {
    hide SameValue, Frame, Went, Refers, Find;
    KeptSelf(m, s);
    if rv.Just? && r.VLOCAL? {
      AssignSlot(m, store, s, s1, env[Find(env, n)].1, rv.v, v.value, base, cap);
      FrameMoved(m, s1, m, U.WriteSlot(s1, base + r.reg, v.value), env, c, c, base);
    } else if rv.Just? && r.VUPVAL? {
      AssignUp(m, store, s, s1, ups[r.up], env[Find(env, n)].1, rv.v, v.value, base, cap);
      FrameMoved(m, s1, m, U.Write(s1, ups[r.up], v.value), env, c, c, base);
    }
  }

  lemma HereFrame(m: Places, store: Store, s: U.State, env: Env, c: S.Chain, end: S.Chain, base: nat, ups: seq<U.UpId>)
    requires Here(m, store, s, env, c, end, base, ups)
    ensures c != [] && Frame(m, s, env, c, base) && Stay(m, m)
  {
  }

  lemma WentSelf(m: Places, store: Store, s: U.State, base: nat, cap: set<nat>)
    requires Good(m, store, s)
    ensures Went(m, s, m, store, s, base, cap)
  {
    KeptSelf(m, s);
  }

  lemma AssignSlot(m: Places, store: Store, s: U.State, s1: U.State, a: nat, rv: RValue, v: U.Value, base: nat,
                   cap: set<nat>)
    requires Went(m, s, m, store, s1, base, cap) && a in m && m[a].InStack? && SameValue(m, s1, rv, v)
    ensures a < |store| && m[a].slot < |s1.stack|
    ensures var s' := U.WriteSlot(s1, m[a].slot, v);
        Went(m, s, m, store[a := rv], s', base, cap) && |s'.stack| == |s1.stack|
  {
    StoredSlot(m, store, s1, a, rv, v);
    var s' := U.WriteSlot(s1, m[a].slot, v);
    KeptSelf(m, s);
    hide Good, Kept, Stay, SameValue;
    PushedWent(m, store, s, s1, m, store[a := rv], s', base, cap);
  }

  lemma AssignUp(m: Places, store: Store, s: U.State, s1: U.State, x: U.UpId, a: nat, rv: RValue, v: U.Value,
                 base: nat, cap: set<nat>)
    requires Went(m, s, m, store, s1, base, cap) && Refers(m, s, x, a) && SameValue(m, s1, rv, v)
    ensures a < |store|
    ensures var s' := U.Write(s1, x, v); Went(m, s, m, store[a := rv], s', base, cap) && |s'.stack| == |s1.stack|
  {
    assert Refers(m, s1, x, a);
    StoredUp(m, store, s1, x, a, rv, v);
    var s' := U.Write(s1, x, v);
    KeptSelf(m, s);
    hide Good, Kept, Stay, SameValue;
    PushedWent(m, store, s, s1, m, store[a := rv], s', base, cap);
  }

  // ----- blocks -----

  lemma UpsLeft(m: Places, s: U.State, env: Env, c2: S.Chain, c3: S.Chain, ups: seq<U.UpId>)
    requires c2 != [] && c3 != [] && |c2| == |c3| && c3[0].ups == c2[0].ups && c3[1..] == c2[1..]
    requires UpsFit(m, s, env, c3, ups)
    ensures UpsFit(m, s, env, c2, ups)
  {
    forall i | 0 <= i < |c2[0].ups|
      ensures S.Denotes(c2, i) == S.Denotes(c3, i)
    {
      if |c2| > 1 { assert c2[1] == c2[1..][0] && c3[1] == c3[1..][0]; }
    }
  }

  lemma HereGood(m: Places, store: Store, s: U.State, env: Env, c: S.Chain, end: S.Chain, base: nat, ups: seq<U.UpId>)
    requires Here(m, store, s, env, c, end, base, ups)
    ensures Proper(c) && U.Ok(s) && PlacesOk(m, s) && end != []
  {
  }

  lemma BlockEnter(m: Places, store: Store, s: U.State, env: Env, c: S.Chain, end: S.Chain, base: nat,
                   ups: seq<U.UpId>, body: seq<Stmt>)
    requires Here(m, store, s, env, c, end, base, ups) && Later(TranslateBlock(c, body).0, end)
    ensures var c2 := TranslateAll(Entered(c), body).0;
      Later(c2, c2) && Here(m, store, s, env, Entered(c), c2, base, ups)
  {
    TranslateBlockOk(c, body);
    var c1 := Entered(c);
    var c2 := TranslateAll(c1, body).0;
    var c3 := TranslateBlock(c, body).0;
    EnteredOk(c);
    UpsEarlier(m, s, env, c3, end, ups);
    UpsLeft(m, s, env, c2, c3, ups);
    LaterSelf(c2);
    assert c1[1..] == c[1..];
    KeptSelf(m, s);
    FrameMoved(m, s, m, s, env, c, c1, base);
    NoneAbove(s, base, |c[0].vars|, c2[0].captured);
  }

  lemma BlockLeave(m: Places, s: U.State, env: Env, c: S.Chain, end: S.Chain, base: nat, body: seq<Stmt>, m1: Places,
                   store1: Store, s1: U.State)
    requires Proper(c) && Frame(m, s, env, c, base) && U.Ok(s) && PlacesOk(m, s)
    requires Later(TranslateBlock(c, body).0, end)
    requires Went(m, s, m1, store1, s1, base, TranslateAll(Entered(c), body).0[0].captured) && |s1.stack| >= |s.stack|
    ensures var (c3, code, close, level) := TranslateBlock(c, body);
      var m', s' := Dropped(m1, s1, base + level), Drop(s1, base + level, close);
      Went(m, s, m', store1, s', base, end[0].captured) && |s'.stack| == |s.stack|
  {
    var c2 := TranslateAll(Entered(c), body).0;
    var (c3, code, close, level) := TranslateBlock(c, body);
    assert |s.stack| == base + |c[0].vars|;
    hide U.Ok, Good, Kept, Frame, SameValue, ValuesOk, Translate, TranslateAll, TranslateBlock, S.ChainOk, LevelsOk;
    hide Later, Drop, Dropped, OpenSlot;
    hide PlacesOk, S.Closes, Opens, Same;
    TranslateBlockOk(c, body);
    LaterCaptured(c3, end);
    LeftSlots(s, s1, c2, base, close, level);
    DropOk(m1, store1, s1, base + level, close);
    DropWent(m, s, m1, store1, s1, base + level, close, base, c2[0].captured, end[0].captured);
  }

  /** If the block does not close upvalues when it is left, then no variable of the block is captured. */
  lemma LeftSlots(s: U.State, s1: U.State, c2: S.Chain, base: nat, close: bool, level: nat)
    requires c2 != [] && U.Ok(s) && |s.stack| == base + level && Opens(s, s1, base, c2[0].captured)
    requires Proper(c2) && |c2[0].blocks| > 1 && close == S.Closes(c2[0]) && c2[0].blocks[0].nactvar == level
    ensures close || forall i :: OpenSlot(s1, i) ==> i < base + level
  {
    hide OpenSlot, U.Ok;
    forall r | r in c2[0].captured
      ensures close || r < level
    {
      if r >= level { S.LeaveCloses(c2, r); }
    }
    forall i ensures OpenSlot(s, i) ==> i < base + level {
      OpenBelow(s, i);
    }
  }

  lemma DropWent(m: Places, s: U.State, m1: Places, store1: Store, s1: U.State, level: nat, close: bool, base: nat,
                 cap: set<nat>, cap': set<nat>)
    requires PlacesOk(m, s) && |s.stack| == level <= |s1.stack| && Went(m, s, m1, store1, s1, base, cap)
    requires forall r :: r in cap && base + r < level ==> r in cap'
    requires var m', s' := Dropped(m1, s1, level), Drop(s1, level, close);
      && Good(m', store1, s') && Kept(m1, s1, m', s') && s'.stack == s1.stack[..level]
      && (forall a :: a in m1 && (m1[a].InUp? || m1[a].slot < level) ==> a in m' && m'[a] == m1[a])
      && (forall i :: OpenSlot(s', i) ==> OpenSlot(s1, i) && i < level)
    ensures var m', s' := Dropped(m1, s1, level), Drop(s1, level, close);
      Went(m, s, m', store1, s', base, cap') && |s'.stack| == |s.stack|
  {
    var m', s' := Dropped(m1, s1, level), Drop(s1, level, close);
    hide Good, Kept, Drop, Dropped, OpenSlot;
    KeptThrough(m, s, m1, s1, m', s');
    assert Stay(m, m');
    assert Opens(s, s', base, cap');
  }

  // ----- runs -----

  lemma SimBlock(fuel: nat, m: Places, store: Store, s: U.State, out: seq<int>, env: Env, c: S.Chain, end: S.Chain,
                 base: nat, ups: seq<U.UpId>, body: seq<Stmt>)
    returns (m': Places)
    requires Here(m, store, s, env, c, end, base, ups) && Later(TranslateBlock(c, body).0, end)
    ensures var (c3, code, close, level) := TranslateBlock(c, body);
      var r, q := Run(fuel, store, out, env, body), RunCode(fuel, s, out, base, ups, code);
      && q.o == r.o && q.out == r.out
      && (r.o == Fine ==>
           var s' := Drop(q.s, base + level, close);
           Went(m, s, m', r.store, s', base, end[0].captured) && |s'.stack| == |s.stack|)
    decreases fuel, body, 1
  {
    var (c2, code) := TranslateAll(Entered(c), body);
    var level := TranslateBlock(c, body).3;
    BlockEnter(m, store, s, env, c, end, base, ups, body);
    TranslateBlockOk(c, body);
    HereFrame(m, store, s, env, c, end, base, ups);
    HereGood(m, store, s, env, c, end, base, ups);
    hide TranslateAll, TranslateBlock, Run, RunCode, Drop, Dropped, Here, Later, Went, Frame, Same, S.Closes;
    hide Good, U.Ok, PlacesOk, Proper, OpenSlot;
    var m1 := SimAll(fuel, m, store, s, out, env, Entered(c), c2, base, ups, body);
    var r, q := Run(fuel, store, out, env, body), RunCode(fuel, s, out, base, ups, code);
    m' := Dropped(m1, q.s, base + level);
    if r.o == Fine { BlockLeave(m, s, env, c, end, base, body, m1, r.store, q.s); }
  }

  lemma SimAll(fuel: nat, m: Places, store: Store, s: U.State, out: seq<int>, env: Env, c: S.Chain, end: S.Chain,
               base: nat,
               ups: seq<U.UpId>, body: seq<Stmt>) returns (m': Places)
    requires Here(m, store, s, env, c, end, base, ups) && Later(TranslateAll(c, body).0, end)
    ensures var (c', code) := TranslateAll(c, body);
      Agree(m, s, env, Run(fuel, store, out, env, body), RunCode(fuel, s, out, base, ups, code), m', c', base,
          end[0].captured)
      && |c'[0].vars| >= |c[0].vars|
    decreases fuel, body, 0
  {
    TranslateAllOk(c, body);
    m' := m;
    if body == [] {
      WentSelf(m, store, s, base, end[0].captured);
    } else {
      var (c1, i) := TranslateStep(c, body[0]);
      var (c2, code) := TranslateAll(c1, body[1..]);
      TranslateStepOk(c, body[0]);
      TranslateAllOk(c1, body[1..]);
      LaterThrough(c1, c2, end);
      var m1 := SimStep(fuel, m, store, s, out, env, c, end, base, ups, body[0]);
      var r1, q1 := Step(fuel, store, out, env, body[0]), Execute(fuel, s, out, base, ups, i);
      assert ([i] + code)[1..] == code;
      m' := m1;
      if r1.o == Fine {
        LaterBlocks(c, c1);
        NextHere(m, store, s, env, c, end, base, ups, m1, r1.store, q1.s, r1.env, c1);
        m' := SimAll(fuel, m1, r1.store, q1.s, r1.out, r1.env, c1, end, base, ups, body[1..]);
        var r, q := Run(fuel, r1.store, r1.out, r1.env, body[1..]), RunCode(fuel, q1.s, r1.out, base, ups, code);
        if r.o == Fine { WentThrough(m, s, m1, r1.store, q1.s, m', r.store, q.s, base, end[0].captured); }
      }
    }
  }

  lemma LaterBlocks(c: S.Chain, c': S.Chain)
    requires Later(c, c')
    ensures SameBlocks(c[0].blocks, c'[0].blocks)
  {
  }

  lemma SimStep(fuel: nat, m: Places, store: Store, s: U.State, out: seq<int>, env: Env, c: S.Chain, end: S.Chain,
                base: nat,
                ups: seq<U.UpId>, stmt: Stmt) returns (m': Places)
    requires Here(m, store, s, env, c, end, base, ups) && Later(TranslateStep(c, stmt).0, end)
    ensures var (c', i) := TranslateStep(c, stmt);
      Agree(m, s, env, Step(fuel, store, out, env, stmt), Execute(fuel, s, out, base, ups, i), m', c', base,
          end[0].captured)
    decreases fuel, stmt, 0
  {
    hide Here, Later, Agree, Step, Execute, TranslateStep;
    match stmt
    case Local(n, e) => m' := LocalOk(fuel, m, store, s, out, env, c, end, base, ups, n, e);
    case Assign(n, e) =>
      AssignOk(fuel, m, store, s, out, env, c, end, base, ups, n, e);
      m' := m;
    case Do(body) => m' := DoOk(fuel, m, store, s, out, env, c, end, base, ups, body);
    case While(cond, body) => m' := WhileOk(fuel, m, store, s, out, env, c, end, base, ups, cond, body);
    case Call(f, arg) => m' := CallOk(fuel, m, store, s, out, env, c, end, base, ups, f, arg);
    case Output(e) =>
      OutputOk(fuel, m, store, s, out, env, c, end, base, ups, e);
      m' := m;
  }

  lemma DoOk(fuel: nat, m: Places, store: Store, s: U.State, out: seq<int>, env: Env, c: S.Chain, end: S.Chain,
             base: nat,
             ups: seq<U.UpId>, body: seq<Stmt>) returns (m': Places)
    requires Here(m, store, s, env, c, end, base, ups) && Later(TranslateStep(c, Do(body)).0, end)
    ensures var (c', i) := TranslateStep(c, Do(body));
      Agree(m, s, env, Step(fuel, store, out, env, Do(body)), Execute(fuel, s, out, base, ups, i), m', c', base,
          end[0].captured)
    decreases fuel, body, 2
  {
    hide Here, Went, Frame, Run, RunCode, Translate, TranslateBlock, TranslateStep, Drop, Later, Step, Execute;
    HerePoint(m, store, s, env, c, end, base, ups);
    var (c3, code, close, level) := TranslateBlock(c, body);
    DoSteps(fuel, store, s, out, env, c, base, ups, body);
    m' := SimBlock(fuel, m, store, s, out, env, c, end, base, ups, body);
    var r, q := Run(fuel, store, out, env, body), RunCode(fuel, s, out, base, ups, code);
    if r.o == Fine { DoFrame(m, store, s, env, c, end, base, ups, body, m', r.store, Drop(q.s, base + level, close)); }
  }

  lemma DoSteps(fuel: nat, store: Store, s: U.State, out: seq<int>, env: Env, c: S.Chain, base: nat, ups: seq<U.UpId>,
                body: seq<Stmt>)
    requires c != [] && c[0].blocks != []
    ensures var (c3, code, close, level) := TranslateBlock(c, body);
      var q := RunCode(fuel, s, out, base, ups, code);
      && c3 != [] && TranslateStep(c, Do(body)) == (c3, DoBlock(code, close, level))
      && Step(fuel, store, out, env, Do(body)) == Run(fuel, store, out, env, body).(env := env)
      && Execute(fuel, s, out, base, ups, DoBlock(code, close, level)) ==
         if q.o != Fine then q else q.(s := Drop(q.s, base + level, close))
  {
    hide Drop, Run, RunCode, TranslateBlock;
  }

  lemma DoFrame(m: Places, store: Store, s: U.State, env: Env, c: S.Chain, end: S.Chain, base: nat, ups: seq<U.UpId>,
                body: seq<Stmt>,
                m': Places, store': Store, s': U.State)
    requires Here(m, store, s, env, c, end, base, ups) && Went(m, s, m', store', s', base, end[0].captured)
    requires |s'.stack| == |s.stack|
    ensures TranslateBlock(c, body).0 != [] && Frame(m', s', env, TranslateBlock(c, body).0, base)
  {
    TranslateBlockOk(c, body);
    SamePoint(m, s, m', s', env, c, TranslateBlock(c, body).0, base);
  }

  lemma OutputOk(fuel: nat, m: Places, store: Store, s: U.State, out: seq<int>, env: Env, c: S.Chain, end: S.Chain,
                 base: nat,
                 ups: seq<U.UpId>, e: Expr)
    requires Here(m, store, s, env, c, end, base, ups) && Later(TranslateStep(c, Output(e)).0, end)
    ensures var (c', i) := TranslateStep(c, Output(e));
      Agree(m, s, env, Step(fuel, store, out, env, Output(e)), Execute(fuel, s, out, base, ups, i), m, c', base,
          end[0].captured)
  {
    hide Here, Went, Frame, Fetch, Translate, TranslateStep, Eval, Step, Execute, Later;
    HerePoint(m, store, s, env, c, end, base, ups);
    OutputSteps(fuel, store, s, out, env, c, base, ups, e);
    FetchHere(m, store, s, env, c, end, base, ups, e);
    HerePoint(m, store, Fetch(s, base, ups, Translate(c, e).1).0, env, Translate(c, e).0, end, base, ups);
    HereFrame(m, store, Fetch(s, base, ups, Translate(c, e).1).0, env, Translate(c, e).0, end, base, ups);
  }

  lemma OutputSteps(fuel: nat, store: Store, s: U.State, out: seq<int>, env: Env, c: S.Chain, base: nat,
                    ups: seq<U.UpId>, e: Expr)
    requires c != [] && c[0].blocks != []
    ensures var (c1, o) := Translate(c, e);
      && TranslateStep(c, Output(e)) == (c1, Emit(o))
      && Step(fuel, store, out, env, Output(e)) ==
         (match Eval(store, env, e)
          case Nothing => Result(Failed, store, out, env)
          case Just(v) => if v.RNum? then Result(Fine, store, out + [v.n], env) else Result(Failed, store, out, env))
      && Execute(fuel, s, out, base, ups, Emit(o)) ==
         (match Fetch(s, base, ups, o)
          case (s1, None) => MResult(Failed, s1, out)
          case (s1, Some(v)) => if v.Num? then MResult(Fine, s1, out + [v.n]) else MResult(Failed, s1, out))
  {
    hide Fetch, Translate, Eval;
  }

  lemma AgreeLater(m: Places, s: U.State, m1: Places, store1: Store, s1: U.State, env: Env, r: Result, q: MResult,
                   m': Places, c': S.Chain,
                   base: nat, cap: set<nat>)
    requires c' != [] && Went(m, s, m1, store1, s1, base, cap) && Agree(m1, s1, env, r, q, m', c', base, cap)
    ensures Agree(m, s, env, r, q, m', c', base, cap)
  {
    hide Went, Frame;
    if r.o == Fine { WentThrough(m, s, m1, store1, s1, m', r.store, q.s, base, cap); }
  }

  /** One round of a loop comes back to where it started. */
  lemma RoundOk(fuel: nat, m: Places, store: Store, s: U.State, s1: U.State, out: seq<int>, env: Env, c: S.Chain,
                c1: S.Chain, end: S.Chain,
                base: nat, ups: seq<U.UpId>, body: seq<Stmt>) returns (m': Places)
    requires Here(m, store, s, env, c, end, base, ups) && Went(m, s, m, store, s1, base, end[0].captured)
    requires Here(m, store, s1, env, c1, end, base, ups) && Same(c, c1) && Later(TranslateBlock(c1, body).0, end)
    ensures var (c3, code, close, level) := TranslateBlock(c1, body);
      var r, q := Run(fuel, store, out, env, body), RunCode(fuel, s1, out, base, ups, code);
      && q.o == r.o && q.out == r.out
      && (r.o == Fine ==>
           var s' := Drop(q.s, base + level, close);
           Went(m, s, m', r.store, s', base, end[0].captured) && Here(m', r.store, s', env, c, end, base, ups))
    decreases fuel, body, 2
  {
    var (c3, code, close, level) := TranslateBlock(c1, body);
    m' := SimBlock(fuel, m, store, s1, out, env, c1, end, base, ups, body);
    var r, q := Run(fuel, store, out, env, body), RunCode(fuel, s1, out, base, ups, code);
    if r.o == Fine {
      var s' := Drop(q.s, base + level, close);
      SamePoint(m, s1, m', s', env, c1, c1, base) by { SameSelf(c1); }
      SameBack(c, c1);
      FrameMoved(m', s', m', s', env, c1, c, base) by { KeptSelf(m', s'); }
      hide Good, Kept, Opens, Stay, Frame, UpsFit, BlockOpens, TranslateBlock, Run, RunCode, Drop, Later, S.ChainOk;
      hide LevelsOk;
      WentThrough(m, s, m, store, s1, m', r.store, s', base, end[0].captured);
      NextHere(m, store, s, env, c, end, base, ups, m', r.store, s', env, c);
    }
  }

  lemma SameBack(c: S.Chain, c1: S.Chain)
    requires Same(c, c1) && c != []
    ensures Flat(c) == Flat(c1) && c[0].vars == c1[0].vars && Flat(c[1..]) == Flat(c1[1..])
  {
    SameFlat(c, c1);
    SameLater(c, c1);
    SameFlat(c[1..], c1[1..]);
  }

  /** A loop, when its condition has been evaluated and, unless that is zero, its body has been run. */
  function LoopResult(fuel: nat, store: Store, out: seq<int>, env: Env, stmt: Stmt, rv: Maybe, r: Result): Result {
    if rv.Nothing? then Result(Failed, store, out, env)
    else if rv.v == RNum(0) then Result(Fine, store, out, env)
    else if r.o != Fine then r.(env := env)
    else if fuel == 0 then Result(Exhausted, r.store, r.out, env)
    else Step(fuel - 1, r.store, r.out, env, stmt)
  }

  function LoopMachine(fuel: nat, s1: U.State, out: seq<int>, base: nat, ups: seq<U.UpId>, i: Instr,
                       v: Option<U.Value>, q: MResult, s2: U.State): MResult
  {
    if v.None? then MResult(Failed, s1, out)
    else if v.value == U.Num(0) then MResult(Fine, s1, out)
    else if q.o != Fine then q
    else if fuel == 0 then q.(o := Exhausted)
    else Execute(fuel - 1, s2, q.out, base, ups, i)
  }

  lemma WhileSteps(fuel: nat, store: Store, s: U.State, out: seq<int>, env: Env, base: nat, ups: seq<U.UpId>,
                   cond: Expr, body: seq<Stmt>,
                   o: Operand, code: seq<Instr>, close: bool, level: nat)
    ensures var stmt, i := While(cond, body), Loop(o, code, close, level);
      var (s1, v) := Fetch(s, base, ups, o);
      var r, q := Run(fuel, store, out, env, body), RunCode(fuel, s1, out, base, ups, code);
      && Step(fuel, store, out, env, stmt) == LoopResult(fuel, store, out, env, stmt, Eval(store, env, cond), r)
      && Execute(fuel, s, out, base, ups, i) ==
          LoopMachine(fuel, s1, out, base, ups, i, v, q, Drop(q.s, base + level, close))
  {
    hide Fetch, Eval, Drop, Run, RunCode;
  }

  lemma WhileOk(fuel: nat, m: Places, store: Store, s: U.State, out: seq<int>, env: Env, c: S.Chain, end: S.Chain,
                base: nat,
                ups: seq<U.UpId>, cond: Expr, body: seq<Stmt>) returns (m': Places)
    requires Here(m, store, s, env, c, end, base, ups) && Later(TranslateStep(c, While(cond, body)).0, end)
    ensures var (c', i) := TranslateStep(c, While(cond, body));
      Agree(m, s, env, Step(fuel, store, out, env, While(cond, body)), Execute(fuel, s, out, base, ups, i), m', c',
          base, end[0].captured)
    decreases fuel, body, 3
  {
    hide Here, Good, Kept, Opens, Stay, Frame, Went, Fetch, Translate, TranslateBlock, TranslateStep, Eval, Later;
    hide Same, Proper, Drop;
    hide Run, RunCode, UpsFit, Step, Execute, Agree, LoopResult, LoopMachine;
    HerePoint(m, store, s, env, c, end, base, ups);
    var stmt := While(cond, body);
    WhileTranslated(c, cond, body);
    var (c1, o) := Translate(c, cond);
    var (c3, code, close, level) := TranslateBlock(c1, body);
    WhileStart(m, store, s, env, c, end, base, ups, cond, body);
    WhileSteps(fuel, store, s, out, env, base, ups, cond, body, o, code, close, level);
    var (s1, v) := Fetch(s, base, ups, o);
    var m1 := RoundOk(fuel, m, store, s, s1, out, env, c, c1, end, base, ups, body);
    var r, q := Run(fuel, store, out, env, body), RunCode(fuel, s1, out, base, ups, code);
    m' := LoopAgrees(fuel, m, store, s, s1, out, env, c, end, base, ups, stmt, Eval(store, env, cond), v, r, q, m1,
        Drop(q.s, base + level, close));
  }

  lemma LoopAgrees(fuel: nat, m: Places, store: Store, s: U.State, s1: U.State, out: seq<int>, env: Env, c: S.Chain,
                   end: S.Chain, base: nat,
                   ups: seq<U.UpId>, stmt: Stmt, rv: Maybe, v: Option<U.Value>, r: Result, q: MResult, m1: Places,
                       s2: U.State) returns (m': Places)
    requires c != [] && c[0].blocks != [] && end != [] && Later(TranslateStep(c, stmt).0, end)
    requires TranslateStep(c, stmt).0 != []
    requires Went(m, s, m, store, s1, base, end[0].captured) && Frame(m, s1, env, TranslateStep(c, stmt).0, base)
    requires match rv case Nothing => v == None case Just(x) => v.Some? && (x == RNum(0) <==> v.value == U.Num(0))
    requires q.o == r.o && q.out == r.out
    requires r.o == Fine ==>
        Went(m, s, m1, r.store, s2, base, end[0].captured) && Here(m1, r.store, s2, env, c, end, base, ups)
    requires stmt.While?
    ensures var (c', i) := TranslateStep(c, stmt);
      Agree(m, s, env, LoopResult(fuel, store, out, env, stmt, rv, r),
          LoopMachine(fuel, s1, out, base, ups, i, v, q, s2), m', c', base, end[0].captured)
    decreases fuel, stmt.body, 2
  {
    hide Went, Frame, Here, Later, TranslateStep, Step, Execute;
    m' := m;
    if rv.Just? && rv.v != RNum(0) && r.o == Fine && fuel > 0 {
      m' := RoundsOk(fuel - 1, m, s, m1, r.store, s2, r.out, env, c, end, base, ups, stmt);
    }
  }

  lemma HerePoint(m: Places, store: Store, s: U.State, env: Env, c: S.Chain, end: S.Chain, base: nat, ups: seq<U.UpId>)
    requires Here(m, store, s, env, c, end, base, ups)
    ensures c != [] && c[0].blocks != [] && end != []
  {
  }

  lemma WhileTranslated(c: S.Chain, cond: Expr, body: seq<Stmt>)
    requires c != [] && c[0].blocks != []
    ensures var (c1, o) := Translate(c, cond);
      && c1 != [] && c1[0].blocks != []
      && var (c3, code, close, level) := TranslateBlock(c1, body);
         c3 != [] && TranslateStep(c, While(cond, body)) == (c3, Loop(o, code, close, level))
  {
  }

  lemma CallTranslated(c: S.Chain, f: Expr, arg: Expr)
    requires c != [] && c[0].blocks != []
    ensures var (c1, o1) := Translate(c, f);
      && c1 != [] && c1[0].blocks != []
      && var (c2, o2) := Translate(c1, arg);
         c2 != [] && TranslateStep(c, Call(f, arg)) == (c2, CallFunction(o1, o2))
  {
  }

  /** The rounds after the first one. */
  lemma RoundsOk(fuel: nat, m: Places, s: U.State, m1: Places, store1: Store, s1: U.State, out: seq<int>, env: Env,
                 c: S.Chain, end: S.Chain,
                 base: nat, ups: seq<U.UpId>, stmt: Stmt) returns (m': Places)
    requires end != [] && Went(m, s, m1, store1, s1, base, end[0].captured)
    requires Here(m1, store1, s1, env, c, end, base, ups) && Later(TranslateStep(c, stmt).0, end)
    ensures var (c', i) := TranslateStep(c, stmt);
      Agree(m, s, env, Step(fuel, store1, out, env, stmt), Execute(fuel, s1, out, base, ups, i), m', c', base,
          end[0].captured)
    decreases fuel, stmt, 1
  {
    m' := SimStep(fuel, m1, store1, s1, out, env, c, end, base, ups, stmt);
    var (c', i) := TranslateStep(c, stmt);
    hide Here, Went, Agree, Later, TranslateStep, Step, Execute;
    AgreeLater(m, s, m1, store1, s1, env, Step(fuel, store1, out, env, stmt), Execute(fuel, s1, out, base, ups, i),
        m', c', base, end[0].captured);
  }

  lemma WhileStart(m: Places, store: Store, s: U.State, env: Env, c: S.Chain, end: S.Chain, base: nat, ups: seq<U.UpId>,
                   cond: Expr, body: seq<Stmt>)
    requires Here(m, store, s, env, c, end, base, ups) && Later(TranslateStep(c, While(cond, body)).0, end)
    ensures var (c1, o) := Translate(c, cond); var c3 := TranslateBlock(c1, body).0;
        var (s1, v) := Fetch(s, base, ups, o);
      && Went(m, s, m, store, s1, base, end[0].captured) && Here(m, store, s1, env, c1, end, base, ups) &&
          Same(c, c1) && Later(c3, end)
      && Frame(m, s1, env, c3, base)
      && match Eval(store, env, cond)
         case Nothing => v == None
         case Just(rv) => v.Some? && (rv == RNum(0) <==> v.value == U.Num(0))
  {
    var (c1, o) := Translate(c, cond);
    TranslateOk(c, cond);
    TranslateBlockOk(c1, body);
    var c3 := TranslateBlock(c1, body).0;
    SameThrough(c, c1, c3);
    SameLater(c1, c3);
    LaterThrough(c1, c3, end);
    FetchHere(m, store, s, env, c, end, base, ups, cond);
    var s1 := Fetch(s, base, ups, o).0;
    KeptSelf(m, s);
    SamePoint(m, s, m, s1, env, c, c3, base);
  }

  // ----- calls -----

  /** The activation of a function starts with its parameter. */
  lemma CallEnter(m: Places, store: Store, s: U.State, f: RValue, v: U.Value, rv: RValue, p: Proto, ups: seq<U.UpId>,
                  c: S.Chain)
    requires Good(m, store, s) && f.RFun? && FunFits(c, m, s, f, p, ups) && SameValue(m, s, rv, v)
    ensures var c1 := Opened(c, f.param); var end := TranslateAll(c1, f.body).0;
      var m1 := m[|store| := InStack(|s.stack|)];
      && Here(m1, store + [rv], Push(s, v), f.env + [(f.param, |store|)], c1, end, |s.stack|, ups) && Later(end, end)
      && Stay(m, m1) && Kept(m, s, m1, Push(s, v)) && forall i :: OpenSlot(Push(s, v), i) ==> OpenSlot(s, i)
  {
    hide Good, Kept, SameValue, S.ChainOk, LevelsOk, Later, OpenSlot, UpsFit;
    var c1 := Opened(c, f.param);
    var end := TranslateAll(c1, f.body).0;
    var m1, env1 := m[|store| := InStack(|s.stack|)], f.env + [(f.param, |store|)];
    OpenedOk(c, f.param);
    TranslateAllOk(c1, f.body);
    LaterSelf(end);
    Pushed(m, store, s, rv, v);
    UpsKept(m, s, m1, Push(s, v), f.env, env1, end, ups);
    assert c1[1..] == c;
    assert Frame(m1, Push(s, v), env1, c1, |s.stack|) by { ParameterFrame(m, s, f.env, c, f.param, |store|, v); }
    NoneYet(s, Push(s, v), end[0].captured) by { GoodOk(m, store, s); }
  }

  lemma GoodOk(m: Places, store: Store, s: U.State)
    requires Good(m, store, s)
    ensures U.Ok(s) && PlacesOk(m, s)
  {
  }

  lemma ParameterFrame(m: Places, s: U.State, env: Env, c: S.Chain, p: string, cell: nat, v: U.Value)
    requires c != [] && Fits(env, c)
    ensures Frame(m[cell := InStack(|s.stack|)], Push(s, v), env + [(p, cell)], Opened(c, p), |s.stack|)
  {
    assert Flat(Opened(c, p)) == Flat(c) + [NewVar(c, p)];
  }

  lemma NoneYet(s: U.State, s1: U.State, cap: set<nat>)
    requires U.Ok(s) && forall i :: OpenSlot(s1, i) ==> OpenSlot(s, i)
    ensures BlockOpens(s1, |s.stack|, 0, cap)
  {
    forall i ensures OpenSlot(s, i) ==> i < |s.stack| {
      OpenBelow(s, i);
    }
    hide OpenSlot;
  }

  /** When the function returns, only variables that are captured live on; a function without inner functions has
      none. */
  lemma CallLeave(m: Places, store: Store, s: U.State, m1: Places, s1: U.State, m2: Places, store2: Store, s2: U.State,
                  c: S.Chain, p: string, body: seq<Stmt>, base: nat, cap: set<nat>)
    requires Good(m, store, s) && Stay(m, m1) && Kept(m, s, m1, s1) && Proper(c) && |s2.stack| >= |s.stack|
    requires forall i :: OpenSlot(s1, i) ==> OpenSlot(s, i)
    requires Went(m1, s1, m2, store2, s2, |s.stack|, TranslateAll(Opened(c, p), body).0[0].captured)
    ensures var close := HasFunctions(TranslateAll(Opened(c, p), body).1);
      var m', s' := Dropped(m2, s2, |s.stack|), Drop(s2, |s.stack|, close);
      Went(m, s, m', store2, s', base, cap) && |s'.stack| == |s.stack|
  {
    hide Kept, Stay, SameValue, Dropped, Drop, OpenSlot, Translate, TranslateAll, Opened;
    var (end, code) := TranslateAll(Opened(c, p), body);
    var close, level := HasFunctions(code), |s.stack|;
    GoodOk(m, store, s);
    OpenedOk(c, p);
    if !close { NoFunctionsAll(Opened(c, p), body); }
    StayThrough(m, m1, m2);
    KeptThrough(m, s, m1, s1, m2, s2);
    CalleeOpens(s, s1, s2, end[0].captured);
    var m', s' := Dropped(m2, s2, level), Drop(s2, level, close);
    DropOk(m2, store2, s2, level, close);
    KeptThrough(m, s, m2, s2, m', s');
    DroppedStay(m, s, m2, m', level);
    assert Opens(s, s', base, cap);
  }

  lemma CalleeOpens(s: U.State, s1: U.State, s2: U.State, cap: set<nat>)
    requires U.Ok(s) && Opens(s1, s2, |s.stack|, cap) && forall i :: OpenSlot(s1, i) ==> OpenSlot(s, i)
    ensures forall i :: OpenSlot(s2, i) && i < |s.stack| ==> OpenSlot(s, i)
    ensures cap == {} ==> forall i :: OpenSlot(s2, i) ==> i < |s.stack|
  {
    forall i ensures OpenSlot(s, i) ==> i < |s.stack| {
      OpenBelow(s, i);
    }
    hide OpenSlot;
  }

  lemma DroppedStay(m: Places, s: U.State, m2: Places, m': Places, level: nat)
    requires PlacesOk(m, s) && Stay(m, m2) && level == |s.stack|
    requires forall a :: a in m2 && (m2[a].InUp? || m2[a].slot < level) ==> a in m' && m'[a] == m2[a]
    ensures Stay(m, m')
  {
  }

  function CallResult(fuel: nat, store: Store, out: seq<int>, env: Env, rf: Maybe, rv: Maybe): Result {
    if rf.Nothing? || rv.Nothing? || !rf.v.RFun? then Result(Failed, store, out, env)
    else if fuel == 0 then Result(Exhausted, store, out, env)
    else Run(fuel - 1, store + [rv.v], out, rf.v.env + [(rf.v.param, |store|)], rf.v.body).(env := env)
  }

  function CallMachine(fuel: nat, s1: U.State, s2: U.State, out: seq<int>, vf: Option<U.Value>,
                       v: Option<U.Value>): MResult
  {
    if vf.None? then MResult(Failed, s1, out)
    else if v.None? || !vf.value.Fun? then MResult(Failed, s2, out)
    else if fuel == 0 then MResult(Exhausted, s2, out)
    else
      var q := RunCode(fuel - 1, Push(s2, v.value), out, |s2.stack|, vf.value.ups, vf.value.p.code);
      if q.o != Fine then q else q.(s := Drop(q.s, |s2.stack|, HasFunctions(vf.value.p.code)))
  }

  lemma CallSteps(fuel: nat, store: Store, s: U.State, out: seq<int>, env: Env, base: nat, ups: seq<U.UpId>, f: Expr,
                  arg: Expr,
                  o1: Operand, o2: Operand)
    ensures var (s1, vf) := Fetch(s, base, ups, o1); var (s2, v) := Fetch(s1, base, ups, o2);
      && Step(fuel, store, out, env, Call(f, arg)) ==
          CallResult(fuel, store, out, env, Eval(store, env, f), Eval(store, env, arg))
      && Execute(fuel, s, out, base, ups, CallFunction(o1, o2)) == CallMachine(fuel, s1, s2, out, vf, v)
  {
    hide Fetch, Eval, Drop, Run, RunCode, HasFunctions;
  }

  lemma CallOk(fuel: nat, m: Places, store: Store, s: U.State, out: seq<int>, env: Env, c: S.Chain, end: S.Chain,
               base: nat,
               ups: seq<U.UpId>, f: Expr, arg: Expr) returns (m': Places)
    requires Here(m, store, s, env, c, end, base, ups) && Later(TranslateStep(c, Call(f, arg)).0, end)
    ensures var (c', i) := TranslateStep(c, Call(f, arg));
      Agree(m, s, env, Step(fuel, store, out, env, Call(f, arg)), Execute(fuel, s, out, base, ups, i), m', c', base,
          end[0].captured)
    decreases fuel, arg, 1
  {
    hide Here, Good, Kept, Opens, Stay, Went, Frame, Fetch, Translate, TranslateStep, Eval, Later, Same, Proper;
    hide Drop, Run, RunCode, UpsFit;
    hide FunFits, HasFunctions, Step, Execute, CallResult, CallMachine, SameValue, Agree;
    HerePoint(m, store, s, env, c, end, base, ups);
    CallTranslated(c, f, arg);
    var (c1, o1) := Translate(c, f);
    var (c2, o2) := Translate(c1, arg);
    CallStart(m, store, s, env, c, end, base, ups, f, arg);
    CallSteps(fuel, store, s, out, env, base, ups, f, arg, o1, o2);
    var (s1, vf) := Fetch(s, base, ups, o1);
    var (s2, v) := Fetch(s1, base, ups, o2);
    m' := CallAgrees(fuel, m, store, s, s1, s2, out, env, c2, base, end[0].captured, f, arg, vf, v);
  }

  lemma CallAgrees(fuel: nat, m: Places, store: Store, s: U.State, s1: U.State, s2: U.State, out: seq<int>, env: Env,
                   c: S.Chain, base: nat,
                   cap: set<nat>, f: Expr, arg: Expr, vf: Option<U.Value>, v: Option<U.Value>) returns (m': Places)
    requires Good(m, store, s2) && Went(m, s, m, store, s2, base, cap) && c != [] && Frame(m, s2, env, c, base)
    requires match Eval(store, env, f) case Nothing => vf == None case Just(r) =>
        vf.Some? && SameValue(m, s2, r, vf.value)
    requires match Eval(store, env, arg) case Nothing => v == None case Just(r) =>
        v.Some? && SameValue(m, s2, r, v.value)
    ensures Agree(m, s, env, CallResult(fuel, store, out, env, Eval(store, env, f), Eval(store, env, arg)),
                  CallMachine(fuel, s1, s2, out, vf, v), m', c, base, cap)
    decreases fuel, arg, 0
  {
    hide Eval, Good, Frame, Went, Run, RunCode, Drop, HasFunctions, FunFits;
    var rf, rv := Eval(store, env, f), Eval(store, env, arg);
    m' := m;
    if rf.Just? && rv.Just? && rf.v.RFun? && fuel > 0 {
      m' := ReturnOk(fuel - 1, m, store, s, s2, out, env, c, base, cap, rf.v, vf.value.p, vf.value.ups, rv.v, v.value);
    }
  }

  /** The whole call of a function, seen from the activation that calls. */
  lemma ReturnOk(fuel: nat, m: Places, store: Store, s: U.State, s2: U.State, out: seq<int>, env: Env, c: S.Chain,
                 base: nat, cap: set<nat>,
                 f: RValue, p: Proto, ups: seq<U.UpId>, rv: RValue, v: U.Value) returns (m': Places)
    requires Good(m, store, s2) && f.RFun? && SameValue(m, s2, f, U.Fun(p, ups)) && SameValue(m, s2, rv, v)
    requires Went(m, s, m, store, s2, base, cap) && c != [] && Frame(m, s2, env, c, base)
    ensures var r := Run(fuel, store + [rv], out, f.env + [(f.param, |store|)], f.body);
      var q := RunCode(fuel, Push(s2, v), out, |s2.stack|, ups, p.code);
      && q.o == r.o && q.out == r.out
      && (r.o == Fine ==>
           var s' := Drop(q.s, |s2.stack|, HasFunctions(p.code));
           Went(m, s, m', r.store, s', base, cap) && Frame(m', s', env, c, base))
    decreases fuel, f.body, 5
  {
    hide Went, Frame, Good, SameValue, Run, RunCode, Drop, HasFunctions;
    m' := CalleeOk(fuel, m, store, s2, out, f, p, ups, rv, v, base, cap);
    var r := Run(fuel, store + [rv], out, f.env + [(f.param, |store|)], f.body);
    var q := RunCode(fuel, Push(s2, v), out, |s2.stack|, ups, p.code);
    if r.o == Fine {
      var s' := Drop(q.s, |s2.stack|, HasFunctions(p.code));
      WentThrough(m, s, m, store, s2, m', r.store, s', base, cap);
      WentStay(m, s2, m', r.store, s', base, cap);
      FrameMoved(m, s2, m', s', env, c, c, base);
    }
  }

  lemma WentStay(m: Places, s: U.State, m': Places, store': Store, s': U.State, base: nat, cap: set<nat>)
    requires Went(m, s, m', store', s', base, cap)
    ensures Stay(m, m')
  {
  }

  lemma CallStart(m: Places, store: Store, s: U.State, env: Env, c: S.Chain, end: S.Chain, base: nat,
                  ups: seq<U.UpId>, f: Expr, arg: Expr)
    requires Here(m, store, s, env, c, end, base, ups) && Later(TranslateStep(c, Call(f, arg)).0, end)
    ensures var (c1, o1) := Translate(c, f); var (c2, o2) := Translate(c1, arg);
      var (s1, vf) := Fetch(s, base, ups, o1); var (s2, v) := Fetch(s1, base, ups, o2);
      && (match Eval(store, env, f) case Nothing => vf == None case Just(r) =>
          vf.Some? && SameValue(m, s2, r, vf.value))
      && (match Eval(store, env, arg) case Nothing => v == None case Just(r) => v.Some? && SameValue(m, s2, r, v.value))
      && Went(m, s, m, store, s2, base, end[0].captured) && c2 != [] && Frame(m, s2, env, c2, base) &&
          Good(m, store, s2)
  {
    hide Good, Opens, Stay, Frame, Fetch, Translate, Later, Same, SameValue, Kept, UpsFit, BlockOpens, S.ChainOk;
    hide LevelsOk;
    var (c1, o1) := Translate(c, f);
    var (c2, o2) := Translate(c1, arg);
    TranslateOk(c, f);
    TranslateOk(c1, arg);
    SameLater(c1, c2);
    LaterThrough(c1, c2, end);
    FetchHere(m, store, s, env, c, end, base, ups, f);
    var (s1, vf) := Fetch(s, base, ups, o1);
    FetchHere(m, store, s1, env, c1, end, base, ups, arg);
    var (s2, v) := Fetch(s1, base, ups, o2);
    WentThrough(m, s, m, store, s1, m, store, s2, base, end[0].captured);
    if Eval(store, env, f).Just? { ValueKept(m, s1, m, s2, Eval(store, env, f).v, vf.value); }
  }

  lemma CalleeOk(fuel: nat, m: Places, store: Store, s: U.State, out: seq<int>, f: RValue, p: Proto, ups: seq<U.UpId>,
                 rv: RValue,
                 v: U.Value, base: nat, cap: set<nat>) returns (m': Places)
    requires Good(m, store, s) && f.RFun? && SameValue(m, s, f, U.Fun(p, ups)) && SameValue(m, s, rv, v)
    ensures var r := Run(fuel, store + [rv], out, f.env + [(f.param, |store|)], f.body);
      var q := RunCode(fuel, Push(s, v), out, |s.stack|, ups, p.code);
      && q.o == r.o && q.out == r.out
      && (r.o == Fine ==>
           var s' := Drop(q.s, |s.stack|, HasFunctions(p.code));
           Went(m, s, m', r.store, s', base, cap) && |s'.stack| == |s.stack|)
    decreases fuel, f.body, 4
  {
    var c :| FunFits(c, m, s, f, p, ups);
    var c1 := Opened(c, f.param);
    var (end, code) := TranslateAll(c1, f.body);
    CallEnter(m, store, s, f, v, rv, p, ups, c);
    var m1, s1 := m[|store| := InStack(|s.stack|)], Push(s, v);
    var env1 := f.env + [(f.param, |store|)];
    hide Good, Kept, Opens, Stay, Went, Translate, TranslateAll, Later, Same, S.ChainOk, LevelsOk, Drop, Run;
    hide RunCode, UpsFit, HasFunctions, SameValue, Here, OpenSlot;
    var m2 := SimAll(fuel, m1, store + [rv], s1, out, env1, c1, end, |s.stack|, ups, f.body);
    var r, q := Run(fuel, store + [rv], out, env1, f.body), RunCode(fuel, s1, out, |s.stack|, ups, code);
    m' := Dropped(m2, q.s, |s.stack|);
    if r.o == Fine { CallLeave(m, store, s, m1, s1, m2, r.store, q.s, c, f.param, f.body, base, cap); }
  }

  // ----- whole programs -----

  /** The main function's only upvalue is the global environment. */
  function MainState(): U.State {
    U.State([], [], map[0 := U.Closed(U.Num(0))], 1)
  }

  lemma {:induction false} ResolveLast(c: S.Chain, n: string, base: bool)
    requires c != []
    ensures var c' := S.Resolve(c, n, base).0; |c'| == |c| && c'[|c| - 1].ups == c[|c| - 1].ups
    decreases |c|
  {
    ResolveSame(c, n, base);
    if |c| == 1 {
      assert c[1..] == [];
    } else if S.VarIn(c[0].vars, n) == -1 && S.UpvalIn(c[0].ups, n, 0) == -1 {
      ResolveLast(c[1..], n, false);
    }
  }

  /** The main function gets no more upvalues. */
  ghost predicate MainUps(c: S.Chain, c': S.Chain) {
    |c'| == |c| > 0 && c'[|c| - 1].ups == c[|c| - 1].ups
  }

  lemma {:induction false} TranslateLast(c: S.Chain, e: Expr)
    requires Proper(c)
    ensures MainUps(c, Translate(c, e).0)
    decreases e
  {
    hide S.ChainOk, LevelsOk;
    match e
    case Const(_) =>
    case Name(n) => ResolveLast(c, n, true);
    case Function(p, body) =>
      OpenedOk(c, p);
      AllLast(Opened(c, p), body);
  }

  lemma BlockLast(c: S.Chain, body: seq<Stmt>)
    requires Proper(c)
    ensures MainUps(c, TranslateBlock(c, body).0)
    decreases body, 1
  {
    EnteredOk(c);
    TranslateBlockOk(c, body);
    AllLast(Entered(c), body);
    var c1, c2, c3 := Entered(c), TranslateAll(Entered(c), body).0, TranslateBlock(c, body).0;
    hide S.ChainOk, LevelsOk, Later, TranslateAll, TranslateBlock;
    if |c| > 1 {
      assert c1[|c| - 1] == c1[1..][|c| - 2] == c[|c| - 1] && c3[|c| - 1] == c3[1..][|c| - 2] == c2[|c| - 1];
    }
  }

  lemma {:induction false} StepLast(c: S.Chain, stmt: Stmt)
    requires Proper(c)
    ensures MainUps(c, TranslateStep(c, stmt).0)
    decreases stmt
  {
    hide S.ChainOk, LevelsOk, S.Resolve;
    match stmt
    case Local(n, e) => TranslateLast(c, e);
    case Assign(n, e) =>
      ResolveLast(c, n, true);
      ResolvedOk(c, n);
      TranslateLast(S.Resolve(c, n, true).0, e);
    case Do(body) => BlockLast(c, body);
    case While(cond, body) =>
      TranslateLast(c, cond);
      TranslateOk(c, cond);
      BlockLast(Translate(c, cond).0, body);
    case Call(f, arg) =>
      TranslateLast(c, f);
      TranslateOk(c, f);
      TranslateLast(Translate(c, f).0, arg);
    case Output(e) => TranslateLast(c, e);
  }

  lemma {:induction false} AllLast(c: S.Chain, body: seq<Stmt>)
    requires Proper(c)
    ensures MainUps(c, TranslateAll(c, body).0)
    decreases body, 0
  {
    if body != [] {
      var c1 := TranslateStep(c, body[0]).0;
      StepLast(c, body[0]);
      TranslateStepOk(c, body[0]);
      AllLast(c1, body[1..]);
    }
  }

  lemma MainProper()
    ensures Proper(S.Main())
  {
    S.MainOk();
    assert S.Main()[1..] == [];
    assert Flat(S.Main()) == [S.Var(S.ENVNAME, S.ENVID)];
  }

  lemma MainHere(end: S.Chain)
    requires Later(S.Main(), end) && end[0].ups == S.Main()[0].ups
    ensures Here(map[0 := InUp(0)], [RNum(0)], MainState(), [(S.ENVNAME, 0)], S.Main(), end, 0, [0])
  {
    MainProper();
    var m, s, env := map[0 := InUp(0)], MainState(), [(S.ENVNAME, 0)];
    assert S.Main()[1..] == [] && Flat(S.Main()) == [S.Var(S.ENVNAME, S.ENVID)] &&
        Flat([]) == [S.Var(S.ENVNAME, S.ENVID)];
    assert Good(m, [RNum(0)], s);
    assert Frame(m, s, env, S.Main(), 0);
    assert UpsFit(m, s, env, end, [0]);
    NoneAbove(s, 0, 0, end[0].captured);
  }

  /** For every program, whatever the nesting of its functions and blocks: running the code that the parser makes, with
      registers, upvalues and the closing of upvalues, comes to the same outcome and output as the program itself, in
      which a function holds the variables in its scope. */
  lemma ProgramRuns(fuel: nat, program: seq<Stmt>)
    ensures var code := TranslateAll(S.Main(), program).1;
      var r := Run(fuel, [RNum(0)], [], [(S.ENVNAME, 0)], program);
      var q := RunCode(fuel, MainState(), [], 0, [0], code);
      q.o == r.o && q.out == r.out
  {
    hide Here, Later, TranslateAll, Run, RunCode;
    MainProper();
    TranslateAllOk(S.Main(), program);
    AllLast(S.Main(), program);
    var end := TranslateAll(S.Main(), program).0;
    MainHere(end);
    LaterSelf(end);
    var _ := SimAll(fuel, map[0 := InUp(0)], [RNum(0)], MainState(), [], [(S.ENVNAME, 0)], S.Main(), end, 0, [0],
        program);
  }
}

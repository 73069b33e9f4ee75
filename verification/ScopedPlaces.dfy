/** How the stack and the upvalues of the machine stand for the variables of a program. */
module ScopedPlaces {
  import S = Scoping
  import opened ScopedPrograms
  import opened ScopedCode
  import opened ScopedChains
  import opened ScopedMachine
  import U = Upvalues

  /** Where a variable is: in a slot while its block is active, in a closed upvalue when it has outlived that. */
  datatype Loc = InStack(slot: nat) | InUp(x: U.UpId)

  /** The variables that can still be used, with their places. */
  type Places = map<nat, Loc>

  function At(s: U.State, l: Loc): U.Value {
    match l
    case InStack(i) => if i < |s.stack| then s.stack[i] else U.Num(0)
    case InUp(x) => U.Read(s, x)
  }

  /** The upvalue is one of this variable. */
  predicate Refers(m: Places, s: U.State, x: U.UpId, cell: nat) {
    && cell in m && x in s.ups
    && match m[cell] case InStack(i) => s.ups[x] == U.Open(i) case InUp(y) => x == y
  }

  /** The upvalues of an activation are the variables that the descriptors of its function lead to. */
  ghost predicate UpsFit(m: Places, s: U.State, env: Env, c: S.Chain, ups: seq<U.UpId>)
    requires c != []
  {
    && |c[0].ups| <= |ups|
    && forall i :: 0 <= i < |c[0].ups| ==>
         S.Denotes(c, i).Some? && S.Denotes(c, i).value < |env| && Refers(m, s, ups[i], env[S.Denotes(c, i).value].1)
  }

  ghost predicate FunFits(c: S.Chain, m: Places, s: U.State, f: RValue, p: Proto, ups: seq<U.UpId>)
    requires f.RFun?
  {
    && Proper(c) && Fits(f.env, c)
    && var (c2, code) := TranslateAll(Opened(c, f.param), f.body);
       c2 != [] && p == Proto(c2[0].ups, code) && UpsFit(m, s, f.env, c2, ups)
  }

  /** A function value is what the parser made of the function at some point of the program, with upvalues for
      those of the variables in its scope that it uses. */
  ghost predicate SameValue(m: Places, s: U.State, rv: RValue, v: U.Value) {
    match rv
    case RNum(n) => v == U.Num(n)
    case RFun(_, _, _) => v.Fun? && exists c :: FunFits(c, m, s, rv, v.p, v.ups)
  }

  /** Different variables have different places. */
  ghost predicate PlacesOk(m: Places, s: U.State) {
    && (forall a :: a in m ==> match m[a]
                               case InStack(i) => i < |s.stack|
                               case InUp(x) => x in s.ups && s.ups[x].Closed?)
    && (forall a, b :: a in m && b in m && m[a] == m[b] ==> a == b)
  }

  ghost predicate ValuesOk(m: Places, store: Store, s: U.State) {
    forall a :: a in m ==> a < |store| && SameValue(m, s, store[a], At(s, m[a]))
  }

  ghost predicate Good(m: Places, store: Store, s: U.State) {
    U.Ok(s) && PlacesOk(m, s) && ValuesOk(m, store, s)
  }

  /** The variables of the innermost function are in its registers. */
  ghost predicate Frame(m: Places, s: U.State, env: Env, c: S.Chain, base: nat)
    requires c != []
  {
    && Fits(env, c) && |s.stack| == base + |c[0].vars|
    && var outer := |Flat(c[1..])|;
       && |env| == outer + |c[0].vars|
       && forall k :: outer <= k < |env| ==> env[k].1 in m && m[env[k].1] == InStack(base + (k - outer))
  }

  /** The slot has an open upvalue. */
  ghost predicate OpenSlot(s: U.State, i: int) {
    exists x :: x in s.ups && s.ups[x].Open? && s.ups[x].slot == i
  }

  // ----- what goes on -----

  /** An upvalue stays one of its variable. */
  ghost predicate Kept(m: Places, s: U.State, m': Places, s': U.State) {
    forall x, a :: Refers(m, s, x, a) ==> Refers(m', s', x, a)
  }

  ghost predicate Stay(m: Places, m': Places) {
    forall a :: a in m ==> a in m' && m'[a] == m[a]
  }

  /** Only registers in `cap` of the activation may have been captured. */
  ghost predicate Opens(s: U.State, s': U.State, base: nat, cap: set<nat>) {
    forall i :: OpenSlot(s', i) ==> OpenSlot(s, i) || (i >= base && i - base in cap)
  }

  /** The same for the variables that were declared in the block with the registers from `lo` on. */
  ghost predicate BlockOpens(s: U.State, base: nat, lo: nat, cap: set<nat>) {
    forall i :: OpenSlot(s, i) && i >= base + lo ==> i - base in cap
  }

  lemma KeptThrough(m: Places, s: U.State, m1: Places, s1: U.State, m2: Places, s2: U.State)
    requires Kept(m, s, m1, s1) && Kept(m1, s1, m2, s2)
    ensures Kept(m, s, m2, s2)
  {
    hide Refers;
  }

  lemma KeptSelf(m: Places, s: U.State)
    ensures Kept(m, s, m, s) && Stay(m, m)
  {
  }

  lemma StayThrough(m: Places, m1: Places, m2: Places)
    requires Stay(m, m1) && Stay(m1, m2)
    ensures Stay(m, m2)
  {
  }

  lemma OpensThrough(s: U.State, s1: U.State, s2: U.State, base: nat, cap: set<nat>)
    requires Opens(s, s1, base, cap) && Opens(s1, s2, base, cap)
    ensures Opens(s, s2, base, cap)
  {
    hide OpenSlot;
  }

  lemma BlockOpensStay(s: U.State, s': U.State, base: nat, lo: nat, cap: set<nat>)
    requires BlockOpens(s, base, lo, cap) && Opens(s, s', base, cap)
    ensures BlockOpens(s', base, lo, cap)
  {
    hide OpenSlot;
  }

  /** No slot above the stack is captured. */
  lemma OpenBelow(s: U.State, i: int)
    requires U.Ok(s)
    ensures OpenSlot(s, i) ==> i < |s.stack|
  {
    if OpenSlot(s, i) {
      var x :| x in s.ups && s.ups[x].Open? && s.ups[x].slot == i;
      assert x in s.open by { assert U.AllListed(s); }
      var j :| 0 <= j < |s.open| && s.open[j] == x;
      assert U.ListOk(s);
    }
  }

  lemma NoneAbove(s: U.State, base: nat, lo: nat, cap: set<nat>)
    requires U.Ok(s) && |s.stack| <= base + lo
    ensures BlockOpens(s, base, lo, cap)
  {
    forall i ensures OpenSlot(s, i) ==> i < base + lo {
      OpenBelow(s, i);
    }
  }

  lemma UpsKept(m: Places, s: U.State, m': Places, s': U.State, env: Env, env': Env, c: S.Chain, ups: seq<U.UpId>)
    requires c != [] && UpsFit(m, s, env, c, ups) && Kept(m, s, m', s') && env <= env'
    ensures UpsFit(m', s', env', c, ups)
  {
    hide Refers;
    forall i | 0 <= i < |c[0].ups|
      ensures Refers(m', s', ups[i], env'[S.Denotes(c, i).value].1)
    {
      assert Refers(m, s, ups[i], env[S.Denotes(c, i).value].1);
    }
  }

  lemma ValueKept(m: Places, s: U.State, m': Places, s': U.State, rv: RValue, v: U.Value)
    requires SameValue(m, s, rv, v) && Kept(m, s, m', s')
    ensures SameValue(m', s', rv, v)
  {
    if rv.RFun? {
      var c :| FunFits(c, m, s, rv, v.p, v.ups);
      var c2 := TranslateAll(Opened(c, rv.param), rv.body).0;
      hide Proper, Fits, UpsFit, Kept;
      UpsKept(m, s, m', s', rv.env, rv.env, c2, v.ups);
      assert FunFits(c, m', s', rv, v.p, v.ups);
    }
  }

  /** All values that are still what they were are still right. */
  lemma ValuesKept(m: Places, store: Store, s: U.State, m': Places, s': U.State)
    requires ValuesOk(m, store, s) && Kept(m, s, m', s')
    requires forall a :: a in m' ==> a in m && At(s', m'[a]) == At(s, m[a])
    ensures ValuesOk(m', store, s')
  {
    hide SameValue, Kept;
    forall a | a in m'
      ensures a < |store| && SameValue(m', s', store[a], At(s', m'[a]))
    {
      ValueKept(m, s, m', s', store[a], At(s, m[a]));
    }
  }

  lemma UpvalHere(c: S.Chain, i: nat)
    requires Proper(c) && i < |c[0].ups|
    ensures S.Denotes(c, i).Some?
  {
    assert S.UpvalOk(c, i);
  }

  /** An earlier point of the function has no more upvalues, and they lead to the same variables. */
  lemma UpsEarlier(m: Places, s: U.State, env: Env, c: S.Chain, c': S.Chain, ups: seq<U.UpId>)
    requires Proper(c) && Later(c, c') && UpsFit(m, s, env, c', ups)
    ensures UpsFit(m, s, env, c, ups)
  {
    forall i | 0 <= i < |c[0].ups|
      ensures S.Denotes(c, i).Some? && S.Denotes(c, i).value < |env|
      ensures Refers(m, s, ups[i], env[S.Denotes(c, i).value].1)
    {
      UpvalHere(c, i);
      LaterDenotes(c, c', i);
    }
  }

  lemma FrameMoved(m: Places, s: U.State, m': Places, s': U.State, env: Env, c: S.Chain, c': S.Chain, base: nat)
    requires c != [] && c' != [] && Frame(m, s, env, c, base) && Stay(m, m') && |s'.stack| == |s.stack|
    requires Flat(c') == Flat(c) && c'[0].vars == c[0].vars && Flat(c'[1..]) == Flat(c[1..])
    ensures Frame(m', s', env, c', base)
  {
    hide Flat;
  }

  // ----- stores into variables -----

  /** A store into the slot of a variable. */
  lemma StoredSlot(m: Places, store: Store, s: U.State, a: nat, rv: RValue, v: U.Value)
    requires Good(m, store, s) && a in m && m[a].InStack? && SameValue(m, s, rv, v)
    ensures var s' := U.WriteSlot(s, m[a].slot, v);
      Good(m, store[a := rv], s') && Kept(m, s, m, s') && s'.ups == s.ups && |s'.stack| == |s.stack|
  {
    var s' := U.WriteSlot(s, m[a].slot, v);
    WroteOk(m, store, s, s', a, rv, v);
  }

  lemma WroteOk(m: Places, store: Store, s: U.State, s': U.State, a: nat, rv: RValue, v: U.Value)
    requires Good(m, store, s) && a in m && SameValue(m, s, rv, v)
    requires s'.ups.Keys == s.ups.Keys
    requires forall x :: x in s.ups ==> (s.ups[x].Open? ==> s'.ups[x] == s.ups[x]) && s'.ups[x].Open? == s.ups[x].Open?
    requires |s'.stack| == |s.stack| && s'.open == s.open && s'.next == s.next
    requires At(s', m[a]) == v && forall b :: b in m && b != a ==> At(s', m[b]) == At(s, m[b])
    ensures Good(m, store[a := rv], s') && Kept(m, s, m, s')
  {
    assert U.Ok(s') by { SameOpen(s, s'); }
    assert Kept(m, s, m, s');
    hide SameValue, Kept, U.Ok;
    forall b | b in m
      ensures SameValue(m, s', store[a := rv][b], At(s', m[b]))
    {
      if b == a {
        ValueKept(m, s, m, s', rv, v);
      } else {
        ValueKept(m, s, m, s', store[b], At(s, m[b]));
      }
    }
  }

  lemma SameOpen(s: U.State, s': U.State)
    requires U.Ok(s) && s'.ups.Keys == s.ups.Keys && |s'.stack| == |s.stack| && s'.open == s.open && s'.next == s.next
    requires forall x :: x in s.ups ==> (s.ups[x].Open? ==> s'.ups[x] == s.ups[x]) && s'.ups[x].Open? == s.ups[x].Open?
    ensures U.Ok(s')
  {
    assert U.ListOk(s') by { assert U.ListOk(s); }
    assert U.Descending(s') by {
      assert U.Descending(s) && U.ListOk(s);
      assert forall i :: 0 <= i < |s.open| ==> U.SlotOf(s', s.open[i]) == U.SlotOf(s, s.open[i]);
    }
    assert U.AllListed(s') by { assert U.AllListed(s); }
  }

  /** A store through an upvalue reaches its variable. */
  lemma StoredUp(m: Places, store: Store, s: U.State, x: U.UpId, a: nat, rv: RValue, v: U.Value)
    requires Good(m, store, s) && Refers(m, s, x, a) && SameValue(m, s, rv, v)
    ensures var s' := U.Write(s, x, v);
      Good(m, store[a := rv], s') && Kept(m, s, m, s') && |s'.stack| == |s.stack|
      && forall i :: OpenSlot(s', i) ==> OpenSlot(s, i)
  {
    if m[a].InStack? {
      StoredSlot(m, store, s, a, rv, v);
    } else {
      var s' := U.Write(s, x, v);
      WroteOk(m, store, s, s', a, rv, v);
      forall i | OpenSlot(s', i) ensures OpenSlot(s, i) {
        var y :| y in s'.ups && s'.ups[y].Open? && s'.ups[y].slot == i;
        assert s.ups[y].Open?;
      }
    }
  }

  lemma RefersReads(m: Places, store: Store, s: U.State, x: U.UpId, a: nat)
    requires Good(m, store, s) && Refers(m, s, x, a)
    ensures U.Read(s, x) == At(s, m[a])
  {
  }

  // ----- new variables -----

  /** A value is pushed: it is the value of a new variable. */
  lemma Pushed(m: Places, store: Store, s: U.State, rv: RValue, v: U.Value)
    requires Good(m, store, s) && SameValue(m, s, rv, v)
    ensures var m' := m[|store| := InStack(|s.stack|)]; var s' := Push(s, v);
      Good(m', store + [rv], s') && Kept(m, s, m', s') && Stay(m, m') && |store| !in m
      && forall i :: OpenSlot(s', i) ==> OpenSlot(s, i)
  {
    var m', s' := m[|store| := InStack(|s.stack|)], Push(s, v);
    assert |store| !in m;
    assert U.Ok(s') by { PushedOk(s, v); }
    assert Kept(m, s, m', s');
    hide SameValue, Kept, U.Ok;
    forall a | a in m'
      ensures a < |store + [rv]| && SameValue(m', s', (store + [rv])[a], At(s', m'[a]))
    {
      if a == |store| {
        ValueKept(m, s, m', s', rv, v);
      } else {
        ValueKept(m, s, m', s', store[a], At(s, m[a]));
      }
    }
    forall i | OpenSlot(s', i) ensures OpenSlot(s, i) {
      var y :| y in s'.ups && s'.ups[y].Open? && s'.ups[y].slot == i;
      assert s.ups[y].Open?;
    }
  }

  lemma PushedOk(s: U.State, v: U.Value)
    requires U.Ok(s)
    ensures U.Ok(Push(s, v))
  {
    var s' := Push(s, v);
    assert U.ListOk(s') by { assert U.ListOk(s); }
    assert U.Descending(s') by { assert U.Descending(s); }
    assert U.AllListed(s') by { assert U.AllListed(s); }
  }

  // ----- variables that die -----

  function UpAt(s: U.State, i: nat): U.UpId { U.Find(s, i).1 }

  lemma UpAtIs(s: U.State, x: U.UpId, i: nat)
    requires U.Ok(s) && x in s.ups && s.ups[x] == U.Open(i)
    ensures UpAt(s, i) == x
  {
    hide U.Ok;
    U.FoundAlready(s, i, x);
  }

  /** The variables from `level` on that nothing has captured are gone, the others are in their upvalues. */
  ghost function Dropped(m: Places, s: U.State, level: nat): Places {
    map a | a in m && (m[a].InUp? || m[a].slot < level || OpenSlot(s, m[a].slot)) ::
      if m[a].InStack? && m[a].slot >= level then InUp(UpAt(s, m[a].slot)) else m[a]
  }

  /** What closing and cutting the stack does to the upvalues. */
  lemma DropUps(s: U.State, level: nat, close: bool)
    requires U.Ok(s) && level <= |s.stack| && (close || forall i :: OpenSlot(s, i) ==> i < level)
    ensures var s' := Drop(s, level, close);
      && U.Ok(s') && s'.stack == s.stack[..level] && s'.ups.Keys == s.ups.Keys
      && (forall x :: x in s.ups && s.ups[x].Open? && s.ups[x].slot < level ==> s'.ups[x] == s.ups[x])
      && (forall x :: x in s.ups && s.ups[x].Open? && s.ups[x].slot >= level ==> s'.ups[x] == U.Closed(U.Read(s, x)))
      && (forall x :: x in s.ups && s.ups[x].Closed? ==> s'.ups[x] == s.ups[x])
  {
    var s1 := if close then U.Close(s, level) else s;
    var s' := Drop(s, level, close);
    if close { U.CloseOk(s, level); }
    forall x | x in s.ups && s.ups[x].Open? && !close
      ensures s.ups[x].slot < level
    {
      assert OpenSlot(s, s.ups[x].slot);
    }
    if close { ClosedUps(s, level); }
    CutOk(s1, level);
  }

  lemma ClosedUps(s: U.State, level: nat)
    requires U.Ok(s)
    ensures var s1 := U.Close(s, level);
      && (forall x :: x in s.ups && s.ups[x].Open? && s.ups[x].slot >= level ==>
          x in s1.ups && s1.ups[x] == U.Closed(U.Read(s, x)))
      && (forall x :: x in s.ups && s.ups[x].Closed? ==> x in s1.ups && s1.ups[x] == s.ups[x])
  {
    U.CloseOk(s, level);
    var s1 := U.Close(s, level);
    hide U.Close, U.Ok;
    assert forall x :: x in s.ups ==> U.Read(s1, x) == U.Read(s, x);
  }

  lemma CutOk(s: U.State, level: nat)
    requires U.Ok(s) && level <= |s.stack| && forall x :: x in s.ups && s.ups[x].Open? ==> s.ups[x].slot < level
    ensures U.Ok(s.(stack := s.stack[..level]))
  {
    var s' := s.(stack := s.stack[..level]);
    assert U.ListOk(s') by { assert U.ListOk(s); }
    assert U.Descending(s') by { assert U.Descending(s); }
    assert U.AllListed(s') by { assert U.AllListed(s); }
  }

  lemma DropOk(m: Places, store: Store, s: U.State, level: nat, close: bool)
    requires Good(m, store, s) && level <= |s.stack| && (close || forall i :: OpenSlot(s, i) ==> i < level)
    ensures var m', s' := Dropped(m, s, level), Drop(s, level, close);
      && Good(m', store, s') && Kept(m, s, m', s') && s'.stack == s.stack[..level]
      && (forall a :: a in m && (m[a].InUp? || m[a].slot < level) ==> a in m' && m'[a] == m[a])
      && (forall i :: OpenSlot(s', i) ==> OpenSlot(s, i) && i < level)
  {
    hide U.Ok, Drop, Dropped, SameValue, PlacesOk;
    var m', s' := Dropped(m, s, level), Drop(s, level, close);
    DropUps(s, level, close);
    DropPlaces(m, s, level, s');
    ValuesKept(m, store, s, m', s');
    forall i | OpenSlot(s', i) ensures OpenSlot(s, i) && i < level {
      var y :| y in s'.ups && s'.ups[y].Open? && s'.ups[y].slot == i;
      assert s.ups[y].Open?;
    }
  }

  lemma DropPlaces(m: Places, s: U.State, level: nat, s': U.State)
    requires U.Ok(s) && PlacesOk(m, s) && level <= |s.stack| && s'.stack == s.stack[..level]
    requires s'.ups.Keys == s.ups.Keys
    requires forall x :: x in s.ups && s.ups[x].Open? && s.ups[x].slot < level ==> s'.ups[x] == s.ups[x]
    requires forall x :: x in s.ups && s.ups[x].Open? && s.ups[x].slot >= level ==> s'.ups[x] == U.Closed(U.Read(s, x))
    requires forall x :: x in s.ups && s.ups[x].Closed? ==> s'.ups[x] == s.ups[x]
    ensures var m' := Dropped(m, s, level);
      && PlacesOk(m', s') && Kept(m, s, m', s')
      && (forall a :: a in m' ==> a in m && At(s', m'[a]) == At(s, m[a]))
      && (forall a :: a in m && (m[a].InUp? || m[a].slot < level) ==> a in m' && m'[a] == m[a])
  {
    hide UpAt;
    hide U.Ok;
    var m' := Dropped(m, s, level);
    forall a | a in m && m[a].InStack? && OpenSlot(s, m[a].slot)
      ensures var x := UpAt(s, m[a].slot); x in s.ups && s.ups[x] == U.Open(m[a].slot)
    {
      var x :| x in s.ups && s.ups[x].Open? && s.ups[x].slot == m[a].slot;
      UpAtIs(s, x, m[a].slot);
    }
    forall x, a | Refers(m, s, x, a)
      ensures Refers(m', s', x, a)
    {
      if m[a].InStack? && m[a].slot >= level {
        assert OpenSlot(s, m[a].slot);
        UpAtIs(s, x, m[a].slot);
      }
    }
    forall a, b | a in m' && b in m' && m'[a] == m'[b]
      ensures a == b
    {
    }
  }
}

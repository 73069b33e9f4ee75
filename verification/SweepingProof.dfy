/** Sweeping frees dead objects only, and leaves no object behind that is not white. */
module SweepingProof {
  import opened CollectorState
  import opened Sweeping
  import opened CollectorInvariant

  // ----- lists -----

  lemma {:induction false} WithoutCount(l: seq<Ref>, x: Ref)
    requires x in l
    ensures multiset(Without(l, x)) == multiset(l) - multiset{x}
    decreases |l|
  {
    assert l == [l[0]] + l[1..];
    if l[0] != x {
      assert x in l[1..];
      WithoutCount(l[1..], x);
    }
  }

  /** The object keeps its contents; an open upvalue may have been closed. */
  predicate Kept(h: map<Ref, Object>, h': map<Ref, Object>, r: Ref)
    requires r in h && r in h'
  {
    || h'[r] == h[r]
    || (h[r].Thread? && h'[r] == h[r].(open := if h'[r].Thread? then h'[r].open else []))
    || (h[r].OpenUpval? && h'[r] == Upval(Slot(h, h[r].thread, h[r].idx)))
  }

  /** Only dead objects have gone, and nothing else has changed for the program. */
  ghost predicate Shrinks(s: State, s': State) {
    && s'.heap.Keys <= s.heap.Keys && Alive(s') == Alive(s)
    && s'.main == s.main && s'.running == s.running && s'.globals == s.globals && s'.current == s.current
    && forall r :: r in s'.heap ==> Kept(s.heap, s'.heap, r)
  }

  lemma ShrinksRefl(s: State)
    ensures Shrinks(s, s)
  {
  }

  lemma KeptSlot(h: map<Ref, Object>, h': map<Ref, Object>, r: Ref)
    requires h'.Keys <= h.Keys && forall x :: x in h' ==> Kept(h, h', x)
    requires r in h' && h'[r].OpenUpval? && h'[r].thread in h'
    ensures h[r] == h'[r] && Slot(h', h'[r].thread, h'[r].idx) == Slot(h, h[r].thread, h[r].idx)
  {
    assert Kept(h, h', r) && Kept(h, h', h'[r].thread);
  }

  lemma ShrinksTrans(a: State, b: State, c: State)
    requires Shrinks(a, b) && Shrinks(b, c)
    requires b.color.Keys == b.heap.Keys && UpvalsOk(b)
    ensures Shrinks(a, c)
  {
    forall r | r in c.heap
      ensures Kept(a.heap, c.heap, r)
    {
      assert Kept(a.heap, b.heap, r) && Kept(b.heap, c.heap, r);
      if b.heap[r].OpenUpval? { KeptSlot(a.heap, b.heap, r); }
    }
  }

  lemma LiveShrinks(s: State, s': State)
    requires Live(s) && Shrinks(s, s') && s'.color.Keys == s'.heap.Keys && UpvalsOk(s')
    ensures Live(s')
  {
    forall r | r in Alive(s')
      ensures r in s'.heap && Within(s'.heap, r, Alive(s'))
    {
      assert r in Alive(s) && Within(s.heap, r, Alive(s));
      assert Kept(s.heap, s'.heap, r);
      if s'.heap[r].OpenUpval? { KeptSlot(s.heap, s'.heap, r); }
    }
  }

  // ----- colours -----

  /** An object that is not dead turns white. */
  lemma WhitenOk(s: State, r: Ref, loose: set<Ref>, pending: set<Ref>)
    requires Wf(s, loose) && Swept(s, pending) && r in Alive(s)
    ensures Wf(Whiten(s, r), loose) && Swept(Whiten(s, r), pending) && Shrinks(s, Whiten(s, r))
  {
    hide OpenListsOk, Hooked, HeadOk, StringCounts, ObjectCounts;
    var s' := Whiten(s, r);
    WhitenAlive(s, r);
    assert NeverBlack(s'.heap, s'.color);
    SamePlaces(s, s', loose);
  }

  lemma WhitenAlive(s: State, r: Ref)
    requires r in Alive(s)
    ensures Alive(Whiten(s, r)) == Alive(s)
  {
  }

  lemma SamePlaces(s: State, s': State, loose: set<Ref>)
    requires PlacesOk(s, loose) && s'.main == s.main && s'.heap == s.heap
    requires s'.strBefore == s.strBefore && s'.strAfter == s.strAfter && s'.before == s.before && s'.after == s.after
    ensures PlacesOk(s', loose)
  {
    assert forall x :: InObjectList(s', x) == InObjectList(s, x);
  }

  lemma PlacesSame(s: State, s': State, loose: set<Ref>)
    requires PlacesOk(s, loose) && s'.main == s.main
    requires StringCounts(s') == StringCounts(s) && ObjectCounts(s') == ObjectCounts(s)
    requires forall x ::
        InStringTable(s'.heap, x) == InStringTable(s.heap, x) && InObjectList(s', x) == InObjectList(s, x)
    ensures PlacesOk(s', loose)
  {
  }

  // ----- one open upvalue -----

  /** The open list of `t` without its element `i`. */
  function Unhooked(s: State, t: Ref, i: nat): State
    requires i < |OpenList(s, t)|
  {
    var l := OpenList(s, t);
    SetOpen(s, t, l[..i] + l[i + 1..])
  }

  lemma ListWithout(l: seq<Ref>, i: nat)
    requires i < |l| && forall x :: multiset(l)[x] <= 1
    ensures var l' := l[..i] + l[i + 1..];
            && (forall x :: multiset(l')[x] == if x in l && x != l[i] then 1 else 0)
            && (forall x :: x in l' <==> x in l && x != l[i])
  {
    var l' := l[..i] + l[i + 1..];
    assert l == l[..i] + [l[i]] + l[i + 1..];
    assert multiset(l) == multiset(l') + multiset{l[i]};
    forall x
      ensures multiset(l')[x] == if x in l && x != l[i] then 1 else 0
      ensures x in l' <==> x in l && x != l[i]
    {
      assert multiset(l)[x] == multiset(l')[x] + multiset{l[i]}[x];
      assert x in l <==> multiset(l)[x] > 0;
      assert x in l' <==> multiset(l')[x] > 0;
    }
  }

  /** The open upvalue `uv` has left the list of its thread. */
  ghost predicate Unhooks(h: map<Ref, Object>, t: Ref, uv: Ref, open: seq<Ref>) {
    && t in h && h[t].Thread? && uv in h[t].open
    && (forall x :: multiset(open)[x] == if x in h[t].open && x != uv then 1 else 0)
    && (forall x :: x in open <==> x in h[t].open && x != uv)
    && Descending(h, open)
  }

  lemma Unhook(s: State, t: Ref, i: nat)
    requires OpenListsOk(s.heap) && i < |OpenList(s, t)|
    ensures var l := OpenList(s, t);
            && Unhooks(s.heap, t, l[i], l[..i] + l[i + 1..])
            && l[i] in s.heap && s.heap[l[i]].OpenUpval? && s.heap[l[i]].thread == t && l[i] != t
            && s.heap[l[i]].idx < |s.heap[t].stack|
  {
    var l := s.heap[t].open;
    assert OpenListOk(s.heap, t);
    hide OpenListsOk, Unhooks, OpenListOk;
    assert OpenList(s, t) == l;
    MemberOpen(s.heap, t, i);
    ListUnhooks(s.heap, t, i);
  }

  lemma MemberOpen(h: map<Ref, Object>, t: Ref, i: nat)
    requires t in h && h[t].Thread? && OpenListOk(h, t) && i < |h[t].open|
    ensures var x := h[t].open[i]; x in h && h[x].OpenUpval? && h[x].thread == t && x != t && h[x].idx < |h[t].stack|
  {
    hide Descending;
    assert h[t].open[i] in h[t].open;
  }

  lemma ListUnhooks(h: map<Ref, Object>, t: Ref, i: nat)
    requires t in h && h[t].Thread? && OpenListOk(h, t) && i < |h[t].open|
    ensures Unhooks(h, t, h[t].open[i], h[t].open[..i] + h[t].open[i + 1..])
  {
    var l := h[t].open;
    OnceOnly(h, t);
    ListWithout(l, i);
    StillDescending(h, l, i);
    hide Descending, OpenListOk;
    assert l[i] in l;
  }

  lemma OnceOnly(h: map<Ref, Object>, t: Ref)
    requires t in h && h[t].Thread? && OpenListOk(h, t)
    ensures Descending(h, h[t].open) && forall x :: multiset(h[t].open)[x] <= 1
  {
    hide Descending;
  }

  lemma StillDescending(h: map<Ref, Object>, l: seq<Ref>, i: nat)
    requires Descending(h, l) && i < |l|
    ensures Descending(h, l[..i] + l[i + 1..])
  {
  }

  /** The other lists are as they were, whether the upvalue is freed or closed. */
  lemma UnhookedLists(h: map<Ref, Object>, t: Ref, uv: Ref, open: seq<Ref>, h': map<Ref, Object>)
    requires OpenListsOk(h) && Unhooks(h, t, uv, open) && uv != t
    requires forall x :: x in h' ==> x in h
    requires forall x :: x in h && x != uv ==> x in h' && h'[x] == if x == t then h[t].(open := open) else h[x]
    requires uv in h' ==> h'[uv].Upval?
    ensures OpenListsOk(h')
  {
    assert OpenListOk(h, t);
    forall a | a in h' && h'[a].Thread?
      ensures OpenListOk(h', a)
    {
      assert OpenListOk(h, a);
      SameIdx(h, h', h'[a].open);
    }
  }

  lemma SameIdx(h: map<Ref, Object>, h': map<Ref, Object>, l: seq<Ref>)
    requires Descending(h, l) && forall x :: x in l ==> x in h && x in h' && h'[x] == h[x]
    ensures Descending(h', l)
  {
    forall i, j | 0 <= i < j < |l|
      ensures IdxOf(h', l[i]) > IdxOf(h', l[j])
    {
      assert l[i] in l && l[j] in l;
    }
  }

  lemma UnhookedHooks(h: map<Ref, Object>, t: Ref, uv: Ref, open: seq<Ref>, h': map<Ref, Object>)
    requires Hooked(h) && Unhooks(h, t, uv, open) && uv in h && h[uv].OpenUpval?
    requires forall x :: x in h' ==> x in h
    requires forall x :: x in h && x != uv ==> x in h' && h'[x] == if x == t then h[t].(open := open) else h[x]
    requires uv in h' ==> h'[uv].Upval?
    ensures Hooked(h')
  {
  }

  lemma UnhookedHead(h: map<Ref, Object>, uv: Ref, h': map<Ref, Object>, uvhead: seq<Ref>)
    requires HeadOk(h, uvhead) && uv in h && h[uv].OpenUpval?
    requires forall x :: x != uv ==> (x in h' && h'[x].OpenUpval?) == (x in h && h[x].OpenUpval?)
    requires uv in h' ==> !h'[uv].OpenUpval?
    ensures HeadOk(h', Without(uvhead, uv))
  {
    assert multiset(uvhead)[uv] == 1;
    WithoutCount(uvhead, uv);
    forall x
      ensures multiset(Without(uvhead, uv))[x] == if x in h' && h'[x].OpenUpval? then 1 else 0
    {
      assert multiset(Without(uvhead, uv))[x] == multiset(uvhead)[x] - (if x == uv then 1 else 0);
    }
  }

  /** A dead open upvalue is freed. */
  lemma FreeUpvalOk(s: State, t: Ref, i: nat, loose: set<Ref>, pending: set<Ref>)
    requires Wf(s, loose) && Swept(s, pending) && i < |OpenList(s, t)| && Dead(s, OpenList(s, t)[i])
    ensures var uv := OpenList(s, t)[i];
            var s' := FreeUpval(Unhooked(s, t, i), uv);
            && Wf(s', loose) && Swept(s', pending) && Shrinks(s, s') &&
                OpenList(s', t) == OpenList(Unhooked(s, t, i), t)
            && s'.heap.Keys == s.heap.Keys - {uv} && s'.color == s.color - {uv}
            && SameSweep(s, s')
  {
    var l := OpenList(s, t);
    var uv := l[i];
    var open := l[..i] + l[i + 1..];
    var s' := FreeUpval(Unhooked(s, t, i), uv);
    Unhook(s, t, i);
    FreeUpvalIs(s, t, i);
    hide UpvalsOk, Unhooks, Unhooked, FreeUpval, PlacesOk, Swept, Shrinks, OpenList;
    UnhookedUpvals(s, t, uv, open, s', false, Nil);
    NoBlackOpens(s);
    FreedRest(s, t, uv, open, s', loose, pending);
    MainStays(s, s', uv);
  }

  lemma MainStays(s: State, s': State, uv: Ref)
    requires s.main in s.heap && s.heap[s.main].Thread? && s.running in s.heap && s.heap[s.running].Thread?
    requires uv in s.heap && s.heap[uv].OpenUpval? && s'.heap.Keys == s.heap.Keys - {uv} && Shrinks(s, s')
    ensures s'.main in s'.heap && s'.heap[s'.main].Thread? && s'.running in s'.heap && s'.heap[s'.running].Thread?
  {
    assert Kept(s.heap, s'.heap, s.main) && Kept(s.heap, s'.heap, s.running);
  }

  lemma FreeUpvalIs(s: State, t: Ref, i: nat)
    requires i < |OpenList(s, t)| && OpenList(s, t)[i] != t
    ensures var uv := OpenList(s, t)[i];
            var open := OpenList(s, t)[..i] + OpenList(s, t)[i + 1..];
            var s' := FreeUpval(Unhooked(s, t, i), uv);
            && s' == s.(heap := s.heap[t := s.heap[t].(open := open)] - {uv}, color := s.color - {uv},
                uvhead := Without(s.uvhead, uv))
            && OpenList(s', t) == OpenList(Unhooked(s, t, i), t) == open
  {
  }

  lemma NoBlackOpens(s: State)
    requires UpvalsOk(s)
    ensures NeverBlack(s.heap, s.color)
  {
  }

  /** The lists of open upvalues after `uv` has left them, closed or freed. */
  lemma UnhookedUpvals(s: State, t: Ref, uv: Ref, open: seq<Ref>, s': State, closed: bool, v: Value)
    requires UpvalsOk(s) && Unhooks(s.heap, t, uv, open) && uv in s.heap && s.heap[uv].OpenUpval? && uv != t
    requires s.color.Keys == s.heap.Keys
    requires var h := s.heap[t := s.heap[t].(open := open)];
             s'.heap == if closed then h[uv := Upval(v)] else h - {uv}
    requires s'.uvhead == Without(s.uvhead, uv)
    requires forall x :: x in s'.color && x != uv ==> x in s.color && s'.color[x] == s.color[x]
    ensures UpvalsOk(s')
  {
    hide Unhooks;
    hide OpenListsOk, Hooked, HeadOk;
    SameElsewhere(s, t, uv, open, s', closed, v);
    UnhookedLists(s.heap, t, uv, open, s'.heap);
    UnhookedHooks(s.heap, t, uv, open, s'.heap);
    assert s.heap[t].Thread? by { UnhooksThread(s.heap, t, uv, open); }
    UnhookedHead(s.heap, uv, s'.heap, s.uvhead);
  }

  lemma UnhooksThread(h: map<Ref, Object>, t: Ref, uv: Ref, open: seq<Ref>)
    requires Unhooks(h, t, uv, open)
    ensures t in h && h[t].Thread?
  {
  }

  lemma SameElsewhere(s: State, t: Ref, uv: Ref, open: seq<Ref>, s': State, closed: bool, v: Value)
    requires Unhooks(s.heap, t, uv, open) && uv in s.heap && uv != t
    requires var h := s.heap[t := s.heap[t].(open := open)];
             s'.heap == if closed then h[uv := Upval(v)] else h - {uv}
    ensures forall x :: x in s'.heap ==> x in s.heap
    ensures forall x :: x in s.heap && x != uv ==>
        x in s'.heap && s'.heap[x] == if x == t then s.heap[t].(open := open) else s.heap[x]
    ensures uv in s'.heap ==> s'.heap[uv].Upval?
  {
  }

  /** Places, colours and sweep pointers are as before. */
  predicate SameSweep(s: State, s': State) {
    s'.after == s.after && s'.strAfter == s.strAfter && s'.phase == s.phase && s'.main == s.main &&
        s'.current == s.current
  }

  lemma FreedRest(s: State, t: Ref, uv: Ref, open: seq<Ref>, s': State, loose: set<Ref>, pending: set<Ref>)
    requires s.color.Keys == s.heap.Keys && PlacesOk(s, loose) && Swept(s, pending) && NeverBlack(s.heap, s.color)
    requires t in s.heap && s.heap[t].Thread? && uv in s.heap && s.heap[uv].OpenUpval? && Dead(s, uv)
    requires s' ==
        s.(heap := s.heap[t := s.heap[t].(open := open)] - {uv}, color := s.color - {uv}, uvhead := s'.uvhead)
    ensures PlacesOk(s', loose) && Swept(s', pending) && NeverBlack(s'.heap, s'.color) && Shrinks(s, s')
  {
    hide StringCounts, ObjectCounts;
    assert Alive(s') == Alive(s);
    assert StringCounts(s') == StringCounts(s) && ObjectCounts(s') == ObjectCounts(s) by { SameCounts(s, s'); }
    PlacesSame(s, s', loose);
  }

  lemma SameCounts(s: State, s': State)
    requires s'.strBefore == s.strBefore && s'.strAfter == s.strAfter && s'.before == s.before && s'.after == s.after
    ensures StringCounts(s') == StringCounts(s) && ObjectCounts(s') == ObjectCounts(s)
  {
  }

  /** The first open upvalue of a thread while no marking is going on. */
  lemma CloseFirstOk(s: State, t: Ref, loose: set<Ref>, pending: set<Ref>)
    requires Wf(s, loose) && Swept(s, pending) && OpenList(s, t) != [] && !KeepsInvariant(s.phase)
    requires forall x :: x in loose ==> x in s.heap && !s.heap[x].OpenUpval?
    ensures var s' := CloseFirst(s, t);
            && Wf(s', loose) && Swept(s', pending) && Shrinks(s, s') && SameSweep(s, s')
            && (forall x :: x in loose ==> x in s'.heap && !s'.heap[x].OpenUpval?)
  {
    hide Swept, PlacesOk;
    var l := OpenList(s, t);
    var uv := l[0];
    assert l[..0] + l[1..] == l[1..];
    if Dead(s, uv) {
      Unhook(s, t, 0);
      FreeUpvalOk(s, t, 0, loose, pending);
      assert CloseFirst(s, t) == FreeUpval(Unhooked(s, t, 0), uv);
      LooseStay(s, CloseFirst(s, t), uv, loose);
    } else {
      CloseLive(s, t, uv, loose, pending);
    }
  }

  lemma LooseStay(s: State, s': State, uv: Ref, loose: set<Ref>)
    requires forall x :: x in loose ==> x in s.heap && !s.heap[x].OpenUpval?
    requires uv in s.heap && s.heap[uv].OpenUpval? && s'.heap.Keys == s.heap.Keys - {uv} && Shrinks(s, s')
    ensures forall x :: x in loose ==> x in s'.heap && !s'.heap[x].OpenUpval?
  {
    forall x | x in loose
      ensures x in s'.heap && !s'.heap[x].OpenUpval?
    {
      assert x in s'.heap && Kept(s.heap, s'.heap, x);
    }
  }

  /** The state after the first open upvalue was closed and, if it was gray, swept. */
  function Closed1(s: State, t: Ref): State
    requires OpenList(s, t) != [] && OpenList(s, t)[0] in s.color
  {
    var uv := OpenList(s, t)[0];
    var v := if uv in s.heap && s.heap[uv].OpenUpval? then Slot(s.heap, s.heap[uv].thread, s.heap[uv].idx) else Nil;
    s.(uvhead := Without(s.uvhead, uv),
       heap := s.heap[t := s.heap[t].(open := OpenList(s, t)[1..])][uv := Upval(v)],
       before := [uv] + s.before,
       color := if s.color[uv] == Gray then s.color[uv := White(s.current)] else s.color)
  }

  lemma CloseFirstIs(s: State, t: Ref)
    requires OpenList(s, t) != [] && !Dead(s, OpenList(s, t)[0]) && !KeepsInvariant(s.phase)
    requires OpenList(s, t)[0] in s.color
    ensures CloseFirst(s, t) == Closed1(s, t)
  {
  }

  lemma CloseLive(s: State, t: Ref, uv: Ref, loose: set<Ref>, pending: set<Ref>)
    requires Wf(s, loose) && Swept(s, pending) && OpenList(s, t) != [] && !KeepsInvariant(s.phase)
    requires uv == OpenList(s, t)[0] && !Dead(s, uv)
    requires forall x :: x in loose ==> x in s.heap && !s.heap[x].OpenUpval?
    ensures var s' := CloseFirst(s, t);
            && Wf(s', loose) && Swept(s', pending) && Shrinks(s, s') && SameSweep(s, s')
            && (forall x :: x in loose ==> x in s'.heap && !s'.heap[x].OpenUpval?)
  {
    CloseLiveFacts(s, t, loose);
    hide Wf, Swept, Shrinks, NeverBlack, CloseFirst, Closed1, UpvalsOk, PlacesOk, Unhooks, Dead;
    CloseFirstIs(s, t);
    ClosedOk(s, t, uv, loose, pending);
  }

  /** The first open upvalue is not dead, and an open upvalue is never black. */
  lemma CloseLiveFacts(s: State, t: Ref, loose: set<Ref>)
    requires Wf(s, loose) && OpenList(s, t) != [] && !Dead(s, OpenList(s, t)[0])
    ensures var uv := OpenList(s, t)[0];
            && Unhooks(s.heap, t, uv, OpenList(s, t)[1..])
            && uv in s.heap && s.heap[uv].OpenUpval? && s.heap[uv].thread == t && uv != t
            && uv in s.color && (s.color[uv] == Gray || s.color[uv] == White(s.current))
            && s.color.Keys == s.heap.Keys && NeverBlack(s.heap, s.color) && UpvalsOk(s) && PlacesOk(s, loose)
            && s.main in s.heap && s.heap[s.main].Thread? && s.running in s.heap && s.heap[s.running].Thread?
  {
    WfParts(s, loose);
    hide Wf, PlacesOk, UpvalsOk, Unhooks, OpenListsOk, NeverBlack, Descending, Dead, OpenList;
    WithoutFirst(OpenList(s, t));
    Unhook(s, t, 0);
    LiveOpenColor(s, OpenList(s, t)[0]);
  }

  lemma WithoutFirst(l: seq<Ref>)
    requires l != []
    ensures l[..0] + l[0 + 1..] == l[1..]
  {
  }

  lemma WfParts(s: State, loose: set<Ref>)
    requires Wf(s, loose)
    ensures s.color.Keys == s.heap.Keys && UpvalsOk(s) && OpenListsOk(s.heap) && PlacesOk(s, loose)
    ensures NeverBlack(s.heap, s.color)
    ensures s.main in s.heap && s.heap[s.main].Thread? && s.running in s.heap && s.heap[s.running].Thread?
  {
    NoBlackOpens(s);
    hide PlacesOk;
  }

  lemma LiveOpenColor(s: State, uv: Ref)
    requires NeverBlack(s.heap, s.color) && s.color.Keys == s.heap.Keys
    requires uv in s.heap && s.heap[uv].OpenUpval? && !Dead(s, uv)
    ensures s.color[uv] == Gray || s.color[uv] == White(s.current)
  {
  }

  lemma ClosedOk(s: State, t: Ref, uv: Ref, loose: set<Ref>, pending: set<Ref>)
    requires OpenList(s, t) != [] && uv == OpenList(s, t)[0] && Unhooks(s.heap, t, uv, OpenList(s, t)[1..])
    requires uv in s.heap && s.heap[uv].OpenUpval? && s.heap[uv].thread == t && uv != t
    requires uv in s.color && (s.color[uv] == Gray || s.color[uv] == White(s.current))
    requires s.color.Keys == s.heap.Keys && NeverBlack(s.heap, s.color) && UpvalsOk(s) && PlacesOk(s, loose)
    requires s.main in s.heap && s.heap[s.main].Thread? && s.running in s.heap && s.heap[s.running].Thread?
    requires Swept(s, pending) && forall x :: x in loose ==> x in s.heap && !s.heap[x].OpenUpval?
    ensures var s' := Closed1(s, t);
            && Wf(s', loose) && Swept(s', pending) && Shrinks(s, s') && SameSweep(s, s')
            && (forall x :: x in loose ==> x in s'.heap && !s'.heap[x].OpenUpval?)
  {
    var s' := Closed1(s, t);
    Closed1Is(s, t);
    hide UpvalsOk, Unhooks, Closed1, PlacesOk, Swept, Shrinks, NeverBlack;
    UnhookedUpvals(s, t, uv, OpenList(s, t)[1..], s', true, Slot(s.heap, t, s.heap[uv].idx));
    ClosedRest(s, t, uv, s', loose, pending);
    MainKept(s, s');
  }

  lemma MainKept(s: State, s': State)
    requires s.main in s.heap && s.heap[s.main].Thread? && s.running in s.heap && s.heap[s.running].Thread?
    requires s'.heap.Keys == s.heap.Keys && Shrinks(s, s')
    ensures s'.main in s'.heap && s'.heap[s'.main].Thread? && s'.running in s'.heap && s'.heap[s'.running].Thread?
  {
    assert Kept(s.heap, s'.heap, s.main) && Kept(s.heap, s'.heap, s.running);
  }

  lemma Closed1Is(s: State, t: Ref)
    requires OpenList(s, t) != [] && OpenList(s, t)[0] in s.color && OpenList(s, t)[0] in s.heap
    requires s.heap[OpenList(s, t)[0]].OpenUpval? && s.heap[OpenList(s, t)[0]].thread == t
    ensures var uv := OpenList(s, t)[0];
            var s' := Closed1(s, t);
            && s'.heap ==
                s.heap[t := s.heap[t].(open := OpenList(s, t)[1..])][uv := Upval(Slot(s.heap, t, s.heap[uv].idx))]
            && s'.uvhead == Without(s.uvhead, uv) && s'.color.Keys == s.color.Keys
            && s'.heap.Keys == s.heap.Keys
            && (forall x :: x in s.color && x != uv ==> s'.color[x] == s.color[x])
            && SameSweep(s, s')
  {
  }

  lemma ClosedRest(s: State, t: Ref, uv: Ref, s': State, loose: set<Ref>, pending: set<Ref>)
    requires s.color.Keys == s.heap.Keys && PlacesOk(s, loose) && Swept(s, pending) && NeverBlack(s.heap, s.color)
    requires OpenList(s, t) != [] && uv == OpenList(s, t)[0] && uv != t
    requires uv in s.heap && s.heap[uv].OpenUpval? && (s.color[uv] == Gray || s.color[uv] == White(s.current))
    requires s' == Closed1(s, t) && s.main in s.heap && s.heap[s.main].Thread?
    requires forall x :: x in loose ==> x in s.heap && !s.heap[x].OpenUpval?
    ensures PlacesOk(s', loose) && Swept(s', pending) && NeverBlack(s'.heap, s'.color) && Shrinks(s, s')
    ensures forall x :: x in loose ==> x in s'.heap && !s'.heap[x].OpenUpval?
  {
    hide PlacesOk, Closed1, OpenList, Swept, Shrinks, NeverBlack, InStringTable, InObjectList;
    ClosedFields(s, t, uv, loose);
    ClosedPlaces(s, uv, s', loose);
    ClosedShrinks(s, t, uv, s');
    ClosedSwept(s, t, uv, s', pending);
  }

  lemma ClosedFields(s: State, t: Ref, uv: Ref, loose: set<Ref>)
    requires s.color.Keys == s.heap.Keys && NeverBlack(s.heap, s.color)
    requires OpenList(s, t) != [] && uv == OpenList(s, t)[0] && uv != t
    requires uv in s.heap && s.heap[uv].OpenUpval? && (s.color[uv] == Gray || s.color[uv] == White(s.current))
    requires forall x :: x in loose ==> x in s.heap && !s.heap[x].OpenUpval?
    ensures var s' := Closed1(s, t);
      && s'.main == s.main && s'.before == [uv] + s.before && s'.after == s.after && s'.strBefore == s.strBefore
      && s'.strAfter == s.strAfter && uv in s'.heap && s'.heap[uv].Upval? && uv in s'.color
      && s'.color[uv] == White(s'.current) && NeverBlack(s'.heap, s'.color)
      && (forall x :: x in loose ==> x in s'.heap && !s'.heap[x].OpenUpval?)
      && (forall x :: x != uv ==>
            InStringTable(s'.heap, x) == InStringTable(s.heap, x) && InObjectList(s', x) == InObjectList(s, x))
  {
  }

  lemma ClosedSwept(s: State, t: Ref, uv: Ref, s': State, pending: set<Ref>)
    requires s.color.Keys == s.heap.Keys && Swept(s, pending) && OpenList(s, t) != [] && uv == OpenList(s, t)[0]
    requires uv != t
    requires uv in s.heap && s' == Closed1(s, t) && s'.color[uv] == White(s'.current)
    ensures Swept(s', pending)
  {
    forall r | r in s'.heap && r in s'.color && s'.color[r] != White(s'.current)
      ensures ToSweep(s', r, pending)
    {
      assert r != uv && ToSweep(s, r, pending);
    }
  }

  lemma ClosedShrinks(s: State, t: Ref, uv: Ref, s': State)
    requires s.color.Keys == s.heap.Keys && OpenList(s, t) != [] && uv == OpenList(s, t)[0] && uv != t
    requires uv in s.heap && s.heap[uv].OpenUpval? && (s.color[uv] == Gray || s.color[uv] == White(s.current))
    requires s' == Closed1(s, t) && s'.color[uv] == White(s'.current)
    ensures Shrinks(s, s')
  {
    assert Alive(s') == Alive(s);
  }

  lemma ClosedPlaces(s: State, uv: Ref, s': State, loose: set<Ref>)
    requires PlacesOk(s, loose) && uv in s.heap && s.heap[uv].OpenUpval? && uv !in loose && uv != s.main
    requires s'.main == s.main
    requires s'.before == [uv] + s.before && s'.after == s.after && s'.strBefore == s.strBefore
    requires s'.strAfter == s.strAfter
    requires uv in s'.heap && s'.heap[uv].Upval?
    requires forall x :: x != uv ==>
        InStringTable(s'.heap, x) == InStringTable(s.heap, x) && InObjectList(s', x) == InObjectList(s, x)
    ensures PlacesOk(s', loose)
  {
    assert ObjectCounts(s') == ObjectCounts(s) + multiset{uv};
    assert StringCounts(s') == StringCounts(s);
    hide ObjectCounts, StringCounts;
    forall x
      ensures ObjectCounts(s')[x] == if InObjectList(s', x) && x !in loose then 1 else 0
    {
      assert ObjectCounts(s')[x] == ObjectCounts(s)[x] + (if x == uv then 1 else 0);
    }
  }

  lemma {:induction false} CloseUpvalsOk(s: State, t: Ref, level: nat, loose: set<Ref>, pending: set<Ref>)
    requires Wf(s, loose) && Swept(s, pending) && Live(s) && !KeepsInvariant(s.phase)
    requires forall x :: x in loose ==> x in s.heap && !s.heap[x].OpenUpval?
    ensures var s' := CloseUpvals(s, t, level);
            && Wf(s', loose) && Swept(s', pending) && Shrinks(s, s') && Live(s') && SameSweep(s, s')
            && (forall x :: x in loose ==> x in s'.heap && !s'.heap[x].OpenUpval?)
            && (level == 0 ==> OpenList(s', t) == [])
    decreases |OpenList(s, t)|
  {
    hide Swept, Shrinks, Live, UpvalsOk, PlacesOk, CloseFirst;
    if OpenList(s, t) == [] || Level(s, OpenList(s, t)[0]) < level {
      ShrinksRefl(s);
    } else {
      var s1 := CloseFirst(s, t);
      CloseFirstOk(s, t, loose, pending);
      CloseFirstShorter(s, t);
      LiveShrinks(s, s1);
      CloseUpvalsOk(s1, t, level, loose, pending);
      ShrinksTrans(s, s1, CloseUpvals(s1, t, level));
    }
  }

  lemma {:induction false} SweepUpvalsOk(s: State, t: Ref, i: nat, loose: set<Ref>, pending: set<Ref>)
    requires Wf(s, loose) && Swept(s, pending) && Live(s) && i <= |OpenList(s, t)|
    requires t in s.heap && s.heap[t].Thread?
    requires forall j :: 0 <= j < i ==> OpenList(s, t)[j] in s.color && s.color[OpenList(s, t)[j]] == White(s.current)
    ensures var s' := SweepUpvals(s, t, i);
            && Wf(s', loose) && Swept(s', pending) && Shrinks(s, s') && Live(s') && SameSweep(s, s')
            && t in s'.heap && s'.heap[t].Thread?
            && (forall x :: x in OpenList(s', t) ==> x in s'.color && s'.color[x] == White(s'.current))
    decreases |OpenList(s, t)| - i
  {
    var l := OpenList(s, t);
    hide Swept, Shrinks, Live, Wf, Dead, Whiten, FreeUpval, SetOpen;
    if i >= |l| {
      OpensHere(s, t, loose);
      ShrinksRefl(s);
    } else if Dead(s, l[i]) {
      var s1 := FreeUpval(Unhooked(s, t, i), l[i]);
      UpvalDies(s, t, i, loose, pending);
      SweepUpvalsOk(s1, t, i, loose, pending);
      ShrinksThrice(s, s1, SweepUpvals(s1, t, i), loose);
    } else {
      var s1 := Whiten(s, l[i]);
      UpvalWhitens(s, t, i, loose, pending);
      SweepUpvalsOk(s1, t, i + 1, loose, pending);
      ShrinksThrice(s, s1, SweepUpvals(s1, t, i + 1), loose);
    }
  }

  lemma UpvalDies(s: State, t: Ref, i: nat, loose: set<Ref>, pending: set<Ref>)
    requires Wf(s, loose) && Swept(s, pending) && Live(s) && i < |OpenList(s, t)| && Dead(s, OpenList(s, t)[i])
    requires t in s.heap && s.heap[t].Thread?
    requires forall j :: 0 <= j < i ==> OpenList(s, t)[j] in s.color && s.color[OpenList(s, t)[j]] == White(s.current)
    ensures var s1 := FreeUpval(Unhooked(s, t, i), OpenList(s, t)[i]);
            && Wf(s1, loose) && Swept(s1, pending) && Live(s1) && Shrinks(s, s1) && SameSweep(s, s1)
            && t in s1.heap && s1.heap[t].Thread? && i <= |OpenList(s1, t)| && |OpenList(s1, t)| == |OpenList(s, t)| - 1
            && forall j :: 0 <= j < i ==>
                OpenList(s1, t)[j] in s1.color && s1.color[OpenList(s1, t)[j]] == White(s1.current)
  {
    hide Swept, Shrinks, Live, Wf;
    var l := OpenList(s, t);
    var s1 := FreeUpval(Unhooked(s, t, i), l[i]);
    OpensHere(s, t, loose);
    FreeUpvalOk(s, t, i, loose, pending);
    ShrinksLive(s, s1, loose);
    DeadDiffers(s, t, i);
    ThreadStays(s, s1, t, l[i]);
    assert OpenList(s1, t) == l[..i] + l[i + 1..];
    assert forall j :: 0 <= j < i ==> OpenList(s1, t)[j] == l[j];
  }

  lemma UpvalWhitens(s: State, t: Ref, i: nat, loose: set<Ref>, pending: set<Ref>)
    requires Wf(s, loose) && Swept(s, pending) && Live(s) && i < |OpenList(s, t)| && !Dead(s, OpenList(s, t)[i])
    requires t in s.heap && s.heap[t].Thread?
    requires forall j :: 0 <= j < i ==> OpenList(s, t)[j] in s.color && s.color[OpenList(s, t)[j]] == White(s.current)
    ensures var s1 := Whiten(s, OpenList(s, t)[i]);
            && Wf(s1, loose) && Swept(s1, pending) && Live(s1) && Shrinks(s, s1) && SameSweep(s, s1)
            && s1.heap == s.heap && OpenList(s1, t) == OpenList(s, t)
            && forall j :: 0 <= j < i + 1 ==>
                OpenList(s1, t)[j] in s1.color && s1.color[OpenList(s1, t)[j]] == White(s1.current)
  {
    hide Swept, Shrinks, Live, Wf;
    var l := OpenList(s, t);
    var s1 := Whiten(s, l[i]);
    OpensHere(s, t, loose);
    AliveHere(s, l[i], loose);
    WhitenOk(s, l[i], loose, pending);
    ShrinksLive(s, s1, loose);
  }

  lemma OpensHere(s: State, t: Ref, loose: set<Ref>)
    requires Wf(s, loose) && t in s.heap && s.heap[t].Thread?
    ensures forall x :: x in OpenList(s, t) ==> x in s.heap && s.heap[x].OpenUpval? && x in s.color
  {
    assert OpenListOk(s.heap, t);
  }

  lemma ThreadStays(s: State, s': State, t: Ref, uv: Ref)
    requires Shrinks(s, s') && t in s.heap && s.heap[t].Thread? && s'.heap.Keys == s.heap.Keys - {uv}
    requires uv in s.heap && s.heap[uv].OpenUpval?
    ensures t in s'.heap && s'.heap[t].Thread?
  {
    assert Kept(s.heap, s'.heap, t);
  }

  lemma DeadDiffers(s: State, t: Ref, i: nat)
    requires i < |OpenList(s, t)| && Dead(s, OpenList(s, t)[i])
    requires forall j :: 0 <= j < i ==> OpenList(s, t)[j] in s.color && s.color[OpenList(s, t)[j]] == White(s.current)
    ensures forall j :: 0 <= j < i ==> OpenList(s, t)[j] != OpenList(s, t)[i]
  {
  }

  lemma AliveHere(s: State, r: Ref, loose: set<Ref>)
    requires Wf(s, loose) && r in s.heap && !Dead(s, r)
    ensures r in Alive(s)
  {
  }

  lemma ShrinksLive(s: State, s': State, loose: set<Ref>)
    requires Live(s) && Shrinks(s, s') && Wf(s', loose)
    ensures Live(s')
  {
    LiveShrinks(s, s');
  }

  lemma ShrinksThrice(a: State, b: State, c: State, loose: set<Ref>)
    requires Shrinks(a, b) && Shrinks(b, c) && Wf(b, loose)
    ensures Shrinks(a, c)
  {
    ShrinksTrans(a, b, c);
  }

  // ----- whole objects -----

  /** An object that is not dead is swept: it turns white, and so do the open upvalues of a thread. */
  lemma KeepObjectOk(s: State, r: Ref, pending: set<Ref>)
    requires Wf(s, {}) && Swept(s, pending + {r}) && Live(s) && r in Alive(s)
    ensures var s' := KeepObject(s, r);
            && Wf(s', {}) && Swept(s', pending) && Shrinks(s, s') && Live(s') && SameSweep(s, s')
  {
    hide Shrinks, Live, UpvalsOk, PlacesOk, Wf;
    var s1 := if s.heap[r].Thread? then SweepUpvals(s, r, 0) else s;
    if s.heap[r].Thread? {
      SweepUpvalsOk(s, r, 0, {}, pending + {r});
    } else {
      ShrinksRefl(s);
    }
    StillAlive(s, s1, r);
    WhitenOk(s1, r, {}, pending + {r});
    var s' := Whiten(s1, r);
    ShrinksThrice(s, s1, s', {});
    ShrinksLive(s, s', {});
    OpensWhite(s1, r);
    assert Swept(s', pending);
  }

  lemma StillAlive(s: State, s': State, r: Ref)
    requires Shrinks(s, s') && r in Alive(s)
    ensures r in Alive(s') && r in s'.heap && s'.main == s.main && s'.current == s.current
    ensures s'.heap[r].Thread? == s.heap[r].Thread?
  {
    assert r in s'.heap && Kept(s.heap, s'.heap, r);
  }

  lemma OpensWhite(s: State, r: Ref)
    requires Wf(s, {}) && r in s.heap
    ensures forall x :: x in s.heap && s.heap[x].OpenUpval? && s.heap[x].thread == r ==>
              s.heap[r].Thread? && x in OpenList(s, r)
  {
    assert UpvalsOk(s);
  }

  /** A dead object without open upvalues is freed. */
  lemma DropOk(s: State, r: Ref, pending: set<Ref>)
    requires Wf(s, {r}) && Swept(s, pending + {r}) && Live(s) && r in s.heap && Dead(s, r)
    requires !s.heap[r].OpenUpval? && s.heap[r] != Str(true) && OpenList(s, r) == []
    ensures var s' := Drop(s, r);
            && Wf(s', {}) && Swept(s', pending) && Shrinks(s, s') && Live(s') && SameSweep(s, s')
  {
    hide OpenListsOk, Hooked, HeadOk, Live, Swept, Within;
    var s' := Drop(s, r);
    assert Alive(s') == Alive(s);
    NotRoot(s, r);
    UpvalsWithout(s, r);
    SweptDrop(s, r, pending);
    DropPlaces(s, s', r);
    DropShrinks(s, r);
    LiveShrinks(s, s');
  }

  lemma DropShrinks(s: State, r: Ref)
    requires r in s.heap && Dead(s, r)
    ensures Shrinks(s, Drop(s, r))
  {
    assert Alive(Drop(s, r)) == Alive(s);
  }

  lemma DropPlaces(s: State, s': State, r: Ref)
    requires PlacesOk(s, {r}) && s'.heap == s.heap - {r} && s'.main == s.main && r in s.heap && s.heap[r] != Str(true)
    requires s'.strBefore == s.strBefore && s'.strAfter == s.strAfter && s'.before == s.before && s'.after == s.after
    ensures PlacesOk(s', {})
  {
    hide StringCounts, ObjectCounts;
    SameCounts(s, s');
    assert forall x :: InStringTable(s'.heap, x) == InStringTable(s.heap, x);
    assert forall x :: InObjectList(s', x) == (InObjectList(s, x) && x != r);
  }

  lemma SweptDrop(s: State, r: Ref, pending: set<Ref>)
    requires Wf(s, {r}) && Swept(s, pending + {r}) && OpenList(s, r) == [] && r in s.heap
    ensures Swept(Drop(s, r), pending)
  {
    var s' := Drop(s, r);
    assert UpvalsOk(s);
    forall x | x in s'.heap && x in s'.color && s'.color[x] != White(s'.current)
      ensures ToSweep(s', x, pending)
    {
      assert ToSweep(s, x, pending + {r});
    }
  }

  lemma NotRoot(s: State, r: Ref)
    requires Live(s) && Dead(s, r)
    ensures r != s.main && r != s.running
  {
    assert s.main in Alive(s) && s.running in Alive(s);
  }

  lemma UpvalsWithout(s: State, r: Ref)
    requires s.color.Keys == s.heap.Keys && UpvalsOk(s) && r in s.heap && !s.heap[r].OpenUpval? && OpenList(s, r) == []
    ensures UpvalsOk(Drop(s, r))
  {
    var s' := Drop(s, r);
    forall a | a in s'.heap && s'.heap[a].Thread?
      ensures OpenListOk(s'.heap, a)
    {
      assert OpenListOk(s.heap, a);
    }
    forall x | x in s'.heap && s'.heap[x].OpenUpval?
      ensures s'.heap[x].thread in s'.heap && s'.heap[s'.heap[x].thread].Thread? && x in s'.heap[s'.heap[x].thread].open
    {
      assert s.heap[x].OpenUpval?;
    }
  }

  lemma FreeObjectOk(s: State, r: Ref, pending: set<Ref>)
    requires Wf(s, {r}) && Swept(s, pending + {r}) && Live(s) && r in s.heap && Dead(s, r) && !KeepsInvariant(s.phase)
    requires !s.heap[r].OpenUpval? && s.heap[r] != Str(true)
    ensures var s' := FreeObject(s, r);
            && Wf(s', {}) && Swept(s', pending) && Shrinks(s, s') && Live(s') && SameSweep(s, s')
  {
    hide Shrinks, Live, UpvalsOk, PlacesOk, Wf, Swept;
    if s.heap[r].Thread? {
      var s1 := CloseUpvals(s, r, 0);
      CloseUpvalsOk(s, r, 0, {r}, pending + {r});
      DeadStays(s, s1, r, {r});
      DropOk(s1, r, pending);
      ShrinksThrice(s, s1, Drop(s1, r), {r});
    } else {
      DropOk(s, r, pending);
    }
  }

  lemma DeadStays(s: State, s': State, r: Ref, loose: set<Ref>)
    requires Shrinks(s, s') && Wf(s', loose) && Dead(s, r) && r in s'.heap && s.heap[r].Thread?
    ensures Dead(s', r) && s'.heap[r].Thread?
  {
    assert r !in Alive(s);
    assert r !in Alive(s');
    assert Kept(s.heap, s'.heap, r);
  }

  // ----- list elements -----

  ghost predicate SweepInv(s: State) {
    Wf(s, {}) && Live(s) && Swept(s, {}) && !KeepsInvariant(s.phase)
  }

  lemma TakeObject(s: State)
    requires SweepInv(s) && s.after != []
    ensures var r := s.after[0];
            var s1 := s.(after := s.after[1..]);
            var s2 := s1.(before := s1.before + [r]);
            && r in s.heap && !s.heap[r].OpenUpval? && s.heap[r] != Str(true)
            && Wf(s1, {r}) && Live(s1) && Swept(s1, {r})
            && Wf(s2, {}) && Live(s2) && Swept(s2, {r})
  {
    var r := s.after[0];
    var s1 := s.(after := s.after[1..]);
    var s2 := s1.(before := s1.before + [r]);
    TakeSwept(s);
    TakePlaces(s);
    hide OpenListsOk, Hooked, HeadOk, NeverBlack, PlacesOk, Swept;
    LiveSame(s, s1);
    LiveSame(s, s2);
  }

  lemma TakeSwept(s: State)
    requires Swept(s, {}) && s.after != []
    ensures var r := s.after[0];
            var s1 := s.(after := s.after[1..]);
            Swept(s1, {r}) && Swept(s1.(before := s1.before + [r]), {r})
  {
    assert s.after == [s.after[0]] + s.after[1..];
    var r := s.after[0];
    var s1 := s.(after := s.after[1..]);
    forall x | x in s.heap && x in s.color && s.color[x] != White(s.current)
      ensures ToSweep(s1, x, {r}) && ToSweep(s1.(before := s1.before + [r]), x, {r})
    {
      assert ToSweep(s, x, {});
    }
  }

  lemma TakePlaces(s: State)
    requires PlacesOk(s, {}) && s.after != []
    ensures var r := s.after[0];
            var s1 := s.(after := s.after[1..]);
            && InObjectList(s, r) && PlacesOk(s1, {r}) && PlacesOk(s1.(before := s1.before + [r]), {})
  {
    var r := s.after[0];
    var s1 := s.(after := s.after[1..]);
    var s2 := s1.(before := s1.before + [r]);
    assert s.after == [r] + s1.after;
    assert ObjectCounts(s) == ObjectCounts(s1) + multiset{r} && ObjectCounts(s2) == ObjectCounts(s);
    StringsSame(s, s1);
    StringsSame(s, s2);
    hide ObjectCounts, StringCounts;
    assert ObjectCounts(s)[r] > 0;
    OneLess(s, s1, r);
    assert forall x :: InObjectList(s2, x) == InObjectList(s, x);
    PlacesSame(s, s2, {});
  }

  lemma LiveSame(s: State, s': State)
    requires Live(s) && s'.heap == s.heap && s'.color == s.color && s'.current == s.current
    requires s'.main == s.main && s'.running == s.running && s'.globals == s.globals
    ensures Live(s') && Alive(s') == Alive(s)
  {
    assert Alive(s') == Alive(s);
  }

  lemma StringsSame(s: State, s': State)
    requires s'.strBefore == s.strBefore && s'.strAfter == s.strAfter
    ensures StringCounts(s') == StringCounts(s)
  {
  }

  lemma OneLess(s: State, s': State, r: Ref)
    requires PlacesOk(s, {}) && s'.heap == s.heap && s'.main == s.main
    requires StringCounts(s') == StringCounts(s) && ObjectCounts(s) == ObjectCounts(s') + multiset{r}
    ensures PlacesOk(s', {r})
  {
    hide StringCounts, ObjectCounts;
    forall x
      ensures ObjectCounts(s')[x] == if InObjectList(s', x) && x != r then 1 else 0
    {
      assert ObjectCounts(s)[x] == ObjectCounts(s')[x] + (if x == r then 1 else 0);
      assert InObjectList(s', x) == InObjectList(s, x);
    }
  }

  lemma UpvalsSame(s: State, s': State)
    requires s.color.Keys == s.heap.Keys && UpvalsOk(s) && s'.heap == s.heap && s'.color == s.color
    requires s'.uvhead == s.uvhead
    ensures UpvalsOk(s')
  {
  }

  /** One element of `sweeplist`: a dead object is freed, any other turns white. */
  lemma SweepObjectOk(s: State)
    requires SweepInv(s) && s.after != []
    ensures SweepInv(SweepObject(s)) && Shrinks(s, SweepObject(s))
    ensures SweepObject(s).after == s.after[1..] && SweepObject(s).strAfter == s.strAfter
    ensures SweepObject(s).phase == s.phase
  {
    hide Live, UpvalsOk, PlacesOk, Wf, Swept;
    var r := s.after[0];
    var s1 := s.(after := s.after[1..]);
    TakeObject(s);
    assert {} + {r} == {r};
    if Dead(s, r) {
      FreeObjectOk(s1, r, {});
      SameShrinks(s, s1, FreeObject(s1, r));
    } else {
      var s2 := s1.(before := s1.before + [r]);
      AliveHere(s2, r, {});
      KeepObjectOk(s2, r, {});
      SameShrinks(s, s2, KeepObject(s2, r));
    }
  }

  lemma SameShrinks(s: State, s1: State, s': State)
    requires s1.heap == s.heap && s1.color == s.color && s1.current == s.current
    requires s1.main == s.main && s1.running == s.running && s1.globals == s.globals
    requires Shrinks(s1, s')
    ensures Shrinks(s, s')
  {
    assert Alive(s1) == Alive(s);
  }

  lemma {:induction false} SweepObjectsOk(s: State, n: nat)
    requires SweepInv(s)
    ensures SweepInv(SweepObjects(s, n)) && Shrinks(s, SweepObjects(s, n))
    ensures SweepObjects(s, n).strAfter == s.strAfter && SweepObjects(s, n).phase == s.phase
    ensures |SweepObjects(s, n).after| == if |s.after| <= n then 0 else |s.after| - n
    decreases n
  {
    hide SweepObject, Shrinks, Wf, Live, Swept;
    if n == 0 || s.after == [] {
      ShrinksRefl(s);
    } else {
      SweepObjectOk(s);
      SweepObjectsOk(SweepObject(s), n - 1);
      ShrinksThrice(s, SweepObject(s), SweepObjects(s, n), {});
    }
  }

  lemma {:induction false} SweepToLiveOk(s: State, n: nat)
    requires SweepInv(s)
    ensures SweepInv(SweepToLive(s, n)) && Shrinks(s, SweepToLive(s, n))
    ensures SweepToLive(s, n).strAfter == s.strAfter && SweepToLive(s, n).phase == s.phase
    decreases n
  {
    hide SweepObject, Shrinks, Wf, Live, Swept;
    if n == 0 || s.after == [] {
      ShrinksRefl(s);
    } else {
      SweepObjectOk(s);
      if Dead(s, s.after[0]) {
        SweepToLiveOk(SweepObject(s), n - 1);
        ShrinksThrice(s, SweepObject(s), SweepToLive(s, n), {});
      }
    }
  }

  // ----- strings -----

  lemma SweepStringOk(s: State)
    requires SweepInv(s) && s.strAfter != []
    ensures SweepInv(SweepString1(s)) && Shrinks(s, SweepString1(s))
    ensures SweepString1(s).after == s.after && SweepString1(s).strAfter == s.strAfter[1..]
    ensures SweepString1(s).phase == s.phase
  {
    var r := s.strAfter[0];
    TakeString(s);
    var s' := SweepString1(s);
    hide UpvalsOk, PlacesOk;
    StringSwept(s, s', r);
    hide Swept;
    if Dead(s, r) {
      assert s'.heap == s.heap - {r} && s'.color == s.color - {r};
      assert s.heap.Keys == s.color.Keys;
      NotRoot(s, r);
      UpvalsWithout(s, r);
      UpvalsSame(Drop(s, r), s');
      DropShrinks(s, r);
      SameShrinks2(s, Drop(s, r), s');
      LiveShrinks(s, s');
      StringDropped(s, s', r);
    } else {
      StringKept(s, s', r);
      LiveShrinks(s, s');
    }
  }

  lemma TakeString(s: State)
    requires SweepInv(s) && s.strAfter != []
    ensures var r := s.strAfter[0];
            r in s.heap && s.heap[r] == Str(true) && r in s.color && OpenList(s, r) == []
  {
    var r := s.strAfter[0];
    assert s.strAfter == [r] + s.strAfter[1..];
    assert StringCounts(s)[r] > 0;
  }

  lemma SameShrinks2(s: State, s1: State, s': State)
    requires Shrinks(s, s1) && s'.heap == s1.heap && s'.color == s1.color && s'.current == s1.current
    requires s'.main == s1.main && s'.running == s1.running && s'.globals == s1.globals
    ensures Shrinks(s, s')
  {
    assert Alive(s') == Alive(s1);
  }

  lemma StringKept(s: State, s': State, r: Ref)
    requires Wf(s, {}) && s.strAfter != [] && r == s.strAfter[0] && r in s.heap && s.heap[r] == Str(true) && !Dead(s, r)
    requires s' ==
        s.(strAfter := s.strAfter[1..], strBefore := s.strBefore + [r], color := s.color[r := White(s.current)])
    ensures Wf(s', {}) && Shrinks(s, s')
  {
    hide OpenListsOk, Hooked, HeadOk, StringCounts, ObjectCounts, Alive;
    StringMoved(s, s', r);
    assert NeverBlack(s'.heap, s'.color);
    assert forall x :: InObjectList(s', x) == InObjectList(s, x);
    PlacesSame(s, s', {});
  }

  lemma StringMoved(s: State, s': State, r: Ref)
    requires s.color.Keys == s.heap.Keys && s.strAfter != [] && r == s.strAfter[0] && r in s.heap && !Dead(s, r)
    requires s' ==
        s.(strAfter := s.strAfter[1..], strBefore := s.strBefore + [r], color := s.color[r := White(s.current)])
    ensures Alive(s') == Alive(s) && StringCounts(s') == StringCounts(s) && ObjectCounts(s') == ObjectCounts(s)
  {
    assert s.strAfter == [r] + s'.strAfter;
  }

  lemma DroppedCounts(s: State, s': State, r: Ref)
    requires s.strAfter != [] && r == s.strAfter[0] && s'.strAfter == s.strAfter[1..] && s'.strBefore == s.strBefore
    requires s'.before == s.before && s'.after == s.after
    ensures ObjectCounts(s') == ObjectCounts(s) && StringCounts(s) == StringCounts(s') + multiset{r}
  {
    assert s.strAfter == [r] + s'.strAfter;
  }

  lemma StringDropped(s: State, s': State, r: Ref)
    requires PlacesOk(s, {}) && s'.heap == s.heap - {r} && s'.main == s.main && InStringTable(s.heap, r)
    requires s.strAfter != [] && r == s.strAfter[0] && s'.strAfter == s.strAfter[1..] && s'.strBefore == s.strBefore
    requires s'.before == s.before && s'.after == s.after
    ensures PlacesOk(s', {})
  {
    hide StringCounts, ObjectCounts;
    DroppedCounts(s, s', r);
    forall x
      ensures StringCounts(s')[x] == if InStringTable(s'.heap, x) then 1 else 0
      ensures ObjectCounts(s')[x] == if InObjectList(s', x) then 1 else 0
    {
      assert StringCounts(s)[x] == StringCounts(s')[x] + (if x == r then 1 else 0);
      assert InStringTable(s'.heap, x) == (InStringTable(s.heap, x) && x != r);
      assert InObjectList(s', x) == InObjectList(s, x);
    }
  }

  lemma StringSwept(s: State, s': State, r: Ref)
    requires Swept(s, {}) && s.strAfter != [] && r == s.strAfter[0] && r in s.heap && s.heap[r] == Str(true)
    requires s'.strAfter == s.strAfter[1..] && s'.after == s.after && s'.main == s.main && s'.current == s.current
    requires (s'.heap == s.heap - {r} && s'.color == s.color - {r})
             || (s'.heap == s.heap && s'.color == s.color[r := White(s.current)])
    ensures Swept(s', {})
  {
    assert s.strAfter == [r] + s'.strAfter;
    forall x | x in s'.heap && x in s'.color && s'.color[x] != White(s'.current)
      ensures ToSweep(s', x, {})
    {
      assert x != r && ToSweep(s, x, {});
    }
  }

  lemma {:induction false} SweepStringsOk(s: State, n: nat)
    requires SweepInv(s)
    ensures SweepInv(SweepStrings(s, n)) && Shrinks(s, SweepStrings(s, n))
    ensures SweepStrings(s, n).after == s.after && SweepStrings(s, n).phase == s.phase
    decreases n
  {
    hide SweepString1, Shrinks, Wf, Live, Swept;
    if n == 0 || s.strAfter == [] {
      ShrinksRefl(s);
    } else {
      SweepStringOk(s);
      SweepStringsOk(SweepString1(s), n - 1);
      ShrinksThrice(s, SweepString1(s), SweepStrings(s, n), {});
    }
  }

  /** The last step of the sweep: only the main thread is left, and then everything is white. */
  lemma SweepMainOk(s: State)
    requires SweepInv(s) && s.after == [] && s.strAfter == []
    ensures var s' := KeepObject(s, s.main);
            SweepInv(s') && Shrinks(s, s') && AllWhite(s')
  {
    var r := s.main;
    assert r in Alive(s);
    assert r in s.heap && s.heap[r].Thread?;
    hide Wf, Live, Shrinks, Swept, AllWhite;
    var s1 := SweepUpvals(s, r, 0);
    SweepUpvalsOk(s, r, 0, {}, {});
    StillAlive(s, s1, r);
    WhitenOk(s1, r, {}, {});
    var s' := Whiten(s1, r);
    ShrinksThrice(s, s1, s', {});
    ShrinksLive(s, s', {});
    OpensWhite(s1, r);
    AllWhiteNow(s1, r);
  }

  lemma AllWhiteNow(s: State, r: Ref)
    requires Swept(s, {}) && s.after == [] && s.strAfter == [] && r == s.main && r in s.heap
    requires forall x :: x in s.heap && s.heap[x].OpenUpval? && s.heap[x].thread == r ==>
        x in s.color && s.color[x] == White(s.current)
    ensures AllWhite(Whiten(s, r))
  {
    var s' := Whiten(s, r);
    forall x | x in s'.heap && x in s'.color
      ensures s'.color[x] == White(s'.current)
    {
      assert x in s.color && s.color[x] != White(s.current) ==> ToSweep(s, x, {});
    }
  }
}

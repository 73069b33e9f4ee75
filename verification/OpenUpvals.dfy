/** Creating, sharing and closing open upvalues keeps the invariant of the collector. */
module OpenUpvals {
  import opened CollectorState
  import opened Tricolor
  import opened Traversal
  import opened Propagation
  import opened Sweeping
  import opened CollectorInvariant
  import opened SweepingProof
  import opened CollectorSteps
  import opened Mutator
  import opened Programs

  // ----- a new open upvalue -----

  function NewUpval(s: State, t: Ref, i: nat, level: nat, r: Ref): State
    requires t in s.heap && s.heap[t].Thread? && i <= |s.heap[t].open|
  {
    var l := s.heap[t].open;
    s.(heap := s.heap[t := s.heap[t].(open := l[..i] + [r] + l[i..])][r := OpenUpval(t, level)],
       color := s.color[r := White(s.current)], uvhead := [r] + s.uvhead)
  }

  lemma InsertedCount(l: seq<Ref>, i: nat, r: Ref)
    requires i <= |l|
    ensures multiset(l[..i] + [r] + l[i..]) == multiset(l) + multiset{r}
  {
    assert l == l[..i] + l[i..];
  }

  lemma NewUpvalWf(s: State, t: Ref, i: nat, level: nat, r: Ref)
    requires Wf(s, {}) && t in s.heap && s.heap[t].Thread? && i <= |s.heap[t].open| && level < |s.heap[t].stack|
    requires r !in s.heap && Between(s.heap, s.heap[t].open, i, level)
    ensures Wf(NewUpval(s, t, i, level, r), {})
  {
    hide UpvalsOk, PlacesOk;
    var s' := NewUpval(s, t, i, level, r);
    NewUpvalUpvals(s, t, i, level, r);
    NewUpvalPlaces(s, t, i, level, r);
  }

  lemma NewUpvalPlaces(s: State, t: Ref, i: nat, level: nat, r: Ref)
    requires PlacesOk(s, {}) && t in s.heap && s.heap[t].Thread? && i <= |s.heap[t].open| && r !in s.heap
    ensures PlacesOk(NewUpval(s, t, i, level, r), {})
  {
    var s' := NewUpval(s, t, i, level, r);
    SameCounts(s, s');
    hide StringCounts, ObjectCounts;
    assert forall x :: InObjectList(s', x) == InObjectList(s, x);
    PlacesSame(s, s', {});
  }

  lemma NewUpvalUpvals(s: State, t: Ref, i: nat, level: nat, r: Ref)
    requires s.color.Keys == s.heap.Keys && UpvalsOk(s) && t in s.heap && s.heap[t].Thread? && i <= |s.heap[t].open|
    requires level < |s.heap[t].stack| && r !in s.heap && Between(s.heap, s.heap[t].open, i, level)
    ensures UpvalsOk(NewUpval(s, t, i, level, r))
  {
    hide OpenListsOk, Hooked, HeadOk, Between;
    NewUpvalLists(s, t, i, level, r);
    NewUpvalHooked(s, t, i, level, r);
    NewUpvalHead(s, t, i, level, r);
    assert NeverBlack(NewUpval(s, t, i, level, r).heap, NewUpval(s, t, i, level, r).color);
  }

  /** The place of a new upvalue in the list. */
  ghost predicate Between(h: map<Ref, Object>, l: seq<Ref>, i: nat, level: nat)
    requires i <= |l|
  {
    && (forall j :: 0 <= j < i ==> IdxOf(h, l[j]) > level)
    && (forall j :: i <= j < |l| ==> IdxOf(h, l[j]) < level)
  }

  lemma InsertedDescends(h: map<Ref, Object>, h': map<Ref, Object>, l: seq<Ref>, i: nat, level: nat, r: Ref)
    requires Descending(h, l) && i <= |l| && Between(h, l, i, level) && IdxOf(h', r) == level
    requires forall j :: 0 <= j < |l| ==> IdxOf(h', l[j]) == IdxOf(h, l[j])
    ensures Descending(h', l[..i] + [r] + l[i..])
  {
    var l' := l[..i] + [r] + l[i..];
    forall a, b | 0 <= a < b < |l'|
      ensures IdxOf(h', l'[a]) > IdxOf(h', l'[b])
    {
      assert l'[a] == if a < i then l[a] else if a == i then r else l[a - 1];
      assert l'[b] == if b < i then l[b] else if b == i then r else l[b - 1];
    }
  }

  lemma Inserted(l: seq<Ref>, i: nat, r: Ref)
    requires i <= |l|
    ensures forall x :: x in l[..i] + [r] + l[i..] <==> x in l || x == r
  {
    assert l == l[..i] + l[i..];
  }

  lemma NewUpvalLists(s: State, t: Ref, i: nat, level: nat, r: Ref)
    requires OpenListsOk(s.heap) && t in s.heap && s.heap[t].Thread? && i <= |s.heap[t].open|
    requires level < |s.heap[t].stack| && r !in s.heap && Between(s.heap, s.heap[t].open, i, level)
    ensures OpenListsOk(NewUpval(s, t, i, level, r).heap)
  {
    var s' := NewUpval(s, t, i, level, r);
    hide Between, Descending;
    forall a | a in s'.heap && s'.heap[a].Thread?
      ensures OpenListOk(s'.heap, a)
    {
      assert OpenListOk(s.heap, a);
      if a == t {
        NewUpvalList(s.heap, t, i, level, r);
      } else {
        SameIdx(s.heap, s'.heap, s.heap[a].open);
      }
    }
  }

  lemma NewUpvalList(h: map<Ref, Object>, t: Ref, i: nat, level: nat, r: Ref)
    requires t in h && h[t].Thread? && OpenListOk(h, t) && i <= |h[t].open|
    requires level < |h[t].stack| && r !in h && Between(h, h[t].open, i, level)
    ensures OpenListOk(h[t := h[t].(open := h[t].open[..i] + [r] + h[t].open[i..])][r := OpenUpval(t, level)], t)
  {
    hide Between, Descending;
    var l := h[t].open;
    var h' := h[t := h[t].(open := l[..i] + [r] + l[i..])][r := OpenUpval(t, level)];
    InsertedCount(l, i, r);
    Inserted(l, i, r);
    assert r !in l && multiset(l)[r] == 0;
    forall j | 0 <= j < |l| ensures IdxOf(h', l[j]) == IdxOf(h, l[j]) { assert l[j] in l; }
    InsertedDescends(h, h', l, i, level, r);
  }

  lemma NewUpvalHooked(s: State, t: Ref, i: nat, level: nat, r: Ref)
    requires Hooked(s.heap) && t in s.heap && s.heap[t].Thread? && i <= |s.heap[t].open| && r !in s.heap
    ensures Hooked(NewUpval(s, t, i, level, r).heap)
  {
    var s' := NewUpval(s, t, i, level, r);
    Inserted(s.heap[t].open, i, r);
    forall x | x in s'.heap && s'.heap[x].OpenUpval?
      ensures s'.heap[x].thread in s'.heap && s'.heap[s'.heap[x].thread].Thread? && x in s'.heap[s'.heap[x].thread].open
    {
      if x != r { assert s.heap[x] == s'.heap[x]; }
    }
  }

  lemma NewUpvalHead(s: State, t: Ref, i: nat, level: nat, r: Ref)
    requires HeadOk(s.heap, s.uvhead) && t in s.heap && s.heap[t].Thread? && i <= |s.heap[t].open| && r !in s.heap
    ensures HeadOk(NewUpval(s, t, i, level, r).heap, NewUpval(s, t, i, level, r).uvhead)
  {
    var s' := NewUpval(s, t, i, level, r);
    assert multiset(s'.uvhead) == multiset(s.uvhead) + multiset{r};
    forall x
      ensures multiset(s'.uvhead)[x] == if x in s'.heap && s'.heap[x].OpenUpval? then 1 else 0
    {
      assert multiset(s'.uvhead)[x] == multiset(s.uvhead)[x] + (if x == r then 1 else 0);
    }
  }

  lemma NewUpvalLive(s: State, t: Ref, i: nat, level: nat, r: Ref)
    requires Wf(s, {}) && Live(s) && t in Alive(s) && t in s.heap && s.heap[t].Thread? && i <= |s.heap[t].open|
    requires level < |s.heap[t].stack| && r !in s.heap
    ensures Live(NewUpval(s, t, i, level, r)) && Alive(NewUpval(s, t, i, level, r)) == Alive(s) + {r}
  {
    var s' := NewUpval(s, t, i, level, r);
    assert Hooked(s.heap) && Within(s.heap, t, Alive(s)) && s.color.Keys == s.heap.Keys;
    NewUpvalAlive(s, t, i, level, r);
    NewUpvalWithin(s, t, i, level, r);
    assert RootsAlive(s);
    hide Within, Wf, RootsAlive;
    forall x | x in Alive(s')
      ensures x in s'.heap && Within(s'.heap, x, Alive(s'))
    {
      if x != r {
        if x == t { ThreadWithin(s.heap, s'.heap, x, Alive(s)); } else { GrowWithin(s.heap, s'.heap, x, Alive(s)); }
        WithinMono(s'.heap, x, Alive(s), Alive(s'));
      }
    }
    RootsMono(s, s');
  }

  lemma NewUpvalAlive(s: State, t: Ref, i: nat, level: nat, r: Ref)
    requires s.color.Keys == s.heap.Keys && t in s.heap && s.heap[t].Thread? && i <= |s.heap[t].open| && r !in s.heap
    ensures Alive(NewUpval(s, t, i, level, r)) == Alive(s) + {r}
  {
  }

  lemma NewUpvalWithin(s: State, t: Ref, i: nat, level: nat, r: Ref)
    requires t in s.heap && s.heap[t].Thread? && i <= |s.heap[t].open| && level < |s.heap[t].stack| && r !in s.heap
    requires Within(s.heap, t, Alive(s)) && Alive(NewUpval(s, t, i, level, r)) == Alive(s) + {r}
    ensures Within(NewUpval(s, t, i, level, r).heap, r, Alive(NewUpval(s, t, i, level, r)))
  {
    assert In(s.heap[t].stack[level], Alive(s));
  }

  lemma NewUpvalGrown(s: State, t: Ref, i: nat, level: nat, r: Ref)
    requires t in s.heap && s.heap[t].Thread? && i <= |s.heap[t].open| && r !in s.heap
    ensures var s' := NewUpval(s, t, i, level, r);
            && GrownHeap(s.heap, s'.heap, r) && GrayOpens(s') == GrayOpens(s) && s'.gray == s.gray && SameLists(s, s')
            && s'.color == s.color[r := White(s.current)] && s'.current == s.current && s'.main == s.main
            && (OnlyAllWeak(s) ==> OnlyAllWeak(s'))
  {
  }

  lemma NewUpvalOk(s: State, t: Ref, i: nat, level: nat, r: Ref)
    requires Inv(s) && t in Alive(s) && t in s.heap && s.heap[t].Thread? && i <= |s.heap[t].open|
    requires level < |s.heap[t].stack| && r !in s.heap && Between(s.heap, s.heap[t].open, i, level)
    ensures Inv(NewUpval(s, t, i, level, r)) && Alive(NewUpval(s, t, i, level, r)) == Alive(s) + {r}
  {
    var s' := NewUpval(s, t, i, level, r);
    assert Wf(s, {}) && Live(s) && Hooked(s.heap);
    NewUpvalWf(s, t, i, level, r);
    NewUpvalLive(s, t, i, level, r);
    NewUpvalGrown(s, t, i, level, r);
    if s.phase == Propagate {
      hide Wf, Alive, Tri, Within, GrownHeap, GrayOpens, OnlyAllWeak, NewUpval, RootsAlive;
      NewUpvalMarking(s, t, i, level, r);
    } else {
      hide Wf, Live, Alive, Within, GrownHeap, GrayOpens, OnlyAllWeak;
      NewUpvalSwept(s, t, i, level, r);
    }
  }

  lemma NewUpvalSwept(s: State, t: Ref, i: nat, level: nat, r: Ref)
    requires t in s.heap && s.heap[t].Thread? && i <= |s.heap[t].open| && r !in s.heap
    ensures Swept(s, {}) ==> Swept(NewUpval(s, t, i, level, r), {})
    ensures AllWhite(s) ==> AllWhite(NewUpval(s, t, i, level, r))
  {
    var s' := NewUpval(s, t, i, level, r);
    forall x | Swept(s, {}) && x in s'.heap && x in s'.color
      ensures s'.color[x] == White(s'.current) || ToSweep(s', x, {})
    {
      if x != r { assert x in s.heap && x in s.color && (s.color[x] == White(s.current) || ToSweep(s, x, {})); }
    }
  }

  lemma NewUpvalMarking(s: State, t: Ref, i: nat, level: nat, r: Ref)
    requires Inv(s) && s.phase == Propagate && t in s.heap && s.heap[t].Thread? && i <= |s.heap[t].open| && r !in s.heap
    requires Live(NewUpval(s, t, i, level, r)) && Alive(NewUpval(s, t, i, level, r)) == Alive(s) + {r}
    ensures Marking(NewUpval(s, t, i, level, r))
  {
    var s' := NewUpval(s, t, i, level, r);
    var busy := GrayOpens(s);
    assert Tri(s, busy) && OnlyAllWeak(s) && s.main in Marked(s) && Hooked(s.heap);
    NoDead(s, busy);
    MarkedOpens(s, busy);
    NewUpvalGrown(s, t, i, level, r);
    assert Alive(s') == s'.heap.Keys;
    hide Tri, Wf, Inv, NewUpval;
    GrowTri(s, s', r, busy);
  }

  // ----- sharing -----

  lemma FindUpvalOk(s: State, t: Ref, level: nat, r: Ref)
    requires Inv(s) && t in Alive(s) && t in s.heap && s.heap[t].Thread? && level < |s.heap[t].stack| && r !in s.heap
    ensures var (s', uv) := FindUpval(s, t, level, r);
            && Inv(s') && uv in Alive(s') && uv in s'.heap && s'.heap[uv] == OpenUpval(t, level)
            && Alive(s) <= Alive(s') && t in s'.heap && s'.heap[t].Thread? && s'.heap[t].stack == s.heap[t].stack
            && uv in s'.heap[t].open
  {
    var i := OpenPosition(s, OpenList(s, t), level);
    hide Inv, Within;
    if Captured(s, t, level) {
      CapturedHere(s, t, level);
      ResurrectOk(s, OpenList(s, t)[i]);
    } else {
      PlaceFound(s, t, level);
      hide Between;
      NewUpvalOk(s, t, i, level, r);
    }
  }

  lemma OpenHere(s: State, t: Ref)
    requires Inv(s) && t in s.heap && s.heap[t].Thread?
    ensures OpenListOk(s.heap, t) && Hooked(s.heap)
  {
    assert OpenListsOk(s.heap);
  }

  lemma {:induction false} PositionFound(s: State, l: seq<Ref>, level: nat)
    requires Descending(s.heap, l) && forall x :: x in l ==> x in s.heap && s.heap[x].OpenUpval?
    ensures var i := OpenPosition(s, l, level);
      && (forall j :: 0 <= j < i ==> IdxOf(s.heap, l[j]) > level)
      && (forall j :: i <= j < |l| ==> IdxOf(s.heap, l[j]) <= level)
      && (forall j :: i < j < |l| ==> IdxOf(s.heap, l[j]) < level)
    decreases |l|
  {
    if l != [] {
      assert l[0] in l;
      assert forall j :: 0 < j < |l| ==> l[j] == l[1..][j - 1];
      if Level(s, l[0]) > level { PositionFound(s, l[1..], level); }
    }
  }

  lemma PlaceFound(s: State, t: Ref, level: nat)
    requires Inv(s) && t in s.heap && s.heap[t].Thread? && !Captured(s, t, level)
    ensures Between(s.heap, s.heap[t].open, OpenPosition(s, s.heap[t].open, level), level)
  {
    hide Inv, OpenListOk, Hooked, Descending, OpenPosition;
    OpenHere(s, t);
    OpenMembers(s.heap, t);
    var l := s.heap[t].open;
    PositionFound(s, l, level);
    var i := OpenPosition(s, l, level);
    if i < |l| { assert l[i] in l; }
  }

  /** The place of a slot in the list is that of its upvalue, if there is one. */
  lemma FoundAt(s: State, t: Ref, level: nat)
    requires Inv(s) && t in s.heap && s.heap[t].Thread?
    ensures var l := s.heap[t].open;
      var i := OpenPosition(s, l, level);
      && (Captured(s, t, level) ==> l[i] in l && l[i] in s.heap && s.heap[l[i]] == OpenUpval(t, level))
      && forall x :: x in s.heap && s.heap[x] == OpenUpval(t, level) ==> Captured(s, t, level) && l[i] == x
  {
    hide Inv, OpenListOk, Descending;
    hide OpenPosition;
    OpenHere(s, t);
    OpenMembers(s.heap, t);
    var l := s.heap[t].open;
    PositionFound(s, l, level);
    var i := OpenPosition(s, l, level);
    if i < |l| { assert l[i] in l; }
    forall x | x in s.heap && s.heap[x] == OpenUpval(t, level)
      ensures i < |l| && l[i] == x
    {
      assert x in l;
      OnlyThere(s.heap, l, i, level, x);
    }
  }

  /** Sharing: the upvalue of a slot that has an open one is that one, and otherwise it is new; the others and all else
      are as before. */
  lemma FindUpvalShares(s: State, t: Ref, level: nat, r: Ref)
    requires Inv(s) && t in s.heap && s.heap[t].Thread? && r !in s.heap
    ensures var (s', uv) := FindUpval(s, t, level, r);
      && (forall x :: x in s.heap && s.heap[x] == OpenUpval(t, level) ==> uv == x)
      && (if uv in s.heap then s.heap[uv] == OpenUpval(t, level) && s'.heap == s.heap
          else
            && uv == r && r in s'.heap && s'.heap[r] == OpenUpval(t, level) && s'.heap.Keys == s.heap.Keys + {r}
            && (forall x :: x in s.heap && x != t ==> s'.heap[x] == s.heap[x])
            && s'.heap[t] == s.heap[t].(open := OpenList(s', t))
            && forall x :: x in OpenList(s', t) <==> x in s.heap[t].open || x == r)
  {
    FoundAt(s, t, level);
    hide Inv, OpenPosition, Captured, FindUpval;
    if Captured(s, t, level) { FindUpvalOld(s, t, level, r); } else { FindUpvalNew(s, t, level, r); }
  }

  lemma FindUpvalOld(s: State, t: Ref, level: nat, r: Ref)
    requires t in s.heap && s.heap[t].Thread? && Captured(s, t, level)
    ensures var (s', uv) := FindUpval(s, t, level, r);
      s'.heap == s.heap && uv == s.heap[t].open[OpenPosition(s, s.heap[t].open, level)]
  {
    hide OpenPosition;
  }

  lemma FindUpvalNew(s: State, t: Ref, level: nat, r: Ref)
    requires t in s.heap && s.heap[t].Thread? && r !in s.heap && !Captured(s, t, level)
    ensures var (s', uv) := FindUpval(s, t, level, r);
      && uv == r && r in s'.heap && s'.heap[r] == OpenUpval(t, level) && s'.heap.Keys == s.heap.Keys + {r}
      && (forall x :: x in s.heap && x != t ==> s'.heap[x] == s.heap[x])
      && s'.heap[t] == s.heap[t].(open := OpenList(s', t))
      && forall x :: x in OpenList(s', t) <==> x in s.heap[t].open || x == r
  {
    var i := OpenPosition(s, s.heap[t].open, level);
    hide Captured, OpenPosition;
    Inserted(s.heap[t].open, i, r);
  }

  lemma OnlyThere(h: map<Ref, Object>, l: seq<Ref>, i: nat, level: nat, x: Ref)
    requires x in l && IdxOf(h, x) == level && i <= |l|
    requires (forall j :: 0 <= j < i ==> IdxOf(h, l[j]) > level) && forall j :: i < j < |l| ==> IdxOf(h, l[j]) < level
    ensures i < |l| && l[i] == x
  {
    var j :| 0 <= j < |l| && l[j] == x;
  }

  lemma CapturedHere(s: State, t: Ref, level: nat)
    requires Inv(s) && t in Alive(s) && t in s.heap && s.heap[t].Thread? && Captured(s, t, level)
    ensures var uv := OpenList(s, t)[OpenPosition(s, OpenList(s, t), level)];
            uv in s.heap && s.heap[uv] == OpenUpval(t, level) && Within(s.heap, uv, Alive(s)) && uv in s.heap[t].open
  {
    FoundAt(s, t, level);
    AliveWithin(s, t);
    hide Inv, Captured, OpenPosition, Alive, Within;
    SlotWithin(s.heap, t, OpenList(s, t)[OpenPosition(s, OpenList(s, t), level)], Alive(s));
  }

  lemma AliveWithin(s: State, x: Ref)
    requires Inv(s) && x in Alive(s)
    ensures x in s.heap && Within(s.heap, x, Alive(s))
  {
    assert Live(s);
    hide Inv, Within, Alive;
  }

  lemma SlotWithin(h: map<Ref, Object>, t: Ref, uv: Ref, p: set<Ref>)
    requires t in h && h[t].Thread? && Within(h, t, p) && uv in h && h[uv].OpenUpval? && h[uv].thread == t
    ensures Within(h, uv, p)
  {
  }

  lemma OpenMembers(h: map<Ref, Object>, t: Ref)
    requires t in h && h[t].Thread? && OpenListOk(h, t)
    ensures Descending(h, h[t].open)
    ensures forall x :: x in h[t].open ==> x in h && h[x].OpenUpval? && h[x].thread == t && h[x].idx < |h[t].stack|
  {
    hide Descending;
  }

  // ----- closing while marking -----

  /** The first open upvalue of the thread is closed; its colour is not adjusted yet. */
  function Detached(s: State, t: Ref): State
    requires OpenList(s, t) != []
  {
    var uv := OpenList(s, t)[0];
    var v := if uv in s.heap && s.heap[uv].OpenUpval? then Slot(s.heap, s.heap[uv].thread, s.heap[uv].idx) else Nil;
    var s1 := SetOpen(s, t, OpenList(s, t)[1..]);
    s1.(uvhead := Without(s1.uvhead, uv), heap := s1.heap[uv := Upval(v)], before := [uv] + s1.before)
  }

  lemma DetachedFacts(s: State, t: Ref)
    requires Wf(s, {}) && OpenList(s, t) != []
    ensures var uv := OpenList(s, t)[0];
            var s2 := Detached(s, t);
            && uv in s.heap && s.heap[uv].OpenUpval? && s.heap[uv].thread == t && uv != t && uv in s.color &&
                s.color[uv] != Black
            && s2 == s.(heap :=
                s.heap[t := s.heap[t].(open := OpenList(s, t)[1..])][uv := Upval(Slot(s.heap, t, s.heap[uv].idx))],
                        uvhead := Without(s.uvhead, uv), before := [uv] + s.before)
            && Unhooks(s.heap, t, uv, OpenList(s, t)[1..])
  {
    UnhookFirst(s, t);
    hide Unhooks, Wf, OpenList, Detached;
    DetachedIs(s, t);
  }

  lemma UnhookFirst(s: State, t: Ref)
    requires Wf(s, {}) && OpenList(s, t) != []
    ensures var uv := OpenList(s, t)[0];
            && uv in s.heap && s.heap[uv].OpenUpval? && s.heap[uv].thread == t && uv != t && uv in s.color &&
                s.color[uv] != Black
            && t in s.heap && s.heap[t].Thread?
            && Unhooks(s.heap, t, uv, OpenList(s, t)[1..])
  {
    var l := OpenList(s, t);
    UpvalFacts(s);
    hide Wf, NeverBlack, Unhooks, OpenListsOk;
    WithoutFirst(l);
    Unhook(s, t, 0);
    NotBlackUpval(s, l[0]);
  }

  lemma UpvalFacts(s: State)
    requires Wf(s, {})
    ensures OpenListsOk(s.heap) && NeverBlack(s.heap, s.color) && s.color.Keys == s.heap.Keys
  {
  }

  lemma DetachedIs(s: State, t: Ref)
    requires OpenList(s, t) != [] && t in s.heap && s.heap[t].Thread?
    requires var uv := OpenList(s, t)[0]; uv in s.heap && s.heap[uv].OpenUpval? && s.heap[uv].thread == t
    ensures var uv := OpenList(s, t)[0];
      Detached(s, t) ==
          s.(heap := s.heap[t := s.heap[t].(open := OpenList(s, t)[1..])][uv := Upval(Slot(s.heap, t, s.heap[uv].idx))],
                           uvhead := Without(s.uvhead, uv), before := [uv] + s.before)
  {
  }

  lemma NotBlackUpval(s: State, uv: Ref)
    requires NeverBlack(s.heap, s.color) && uv in s.heap && s.color.Keys == s.heap.Keys && s.heap[uv].OpenUpval?
    ensures uv in s.color && s.color[uv] != Black
  {
  }

  /** Only the closed upvalue has another kind. */
  lemma DetachedKinds(s: State, t: Ref)
    requires Wf(s, {}) && OpenList(s, t) != []
    ensures var uv := OpenList(s, t)[0];
            var s2 := Detached(s, t);
            && s2.heap.Keys == s.heap.Keys && uv in s2.heap && s2.heap[uv].Upval? && s2.color == s.color && uv in s.heap
            && s.heap[uv].OpenUpval? && uv in s.color && s.color[uv] != Black && SameLists(s, s2)
            && forall x :: x in s.heap && x != uv ==> Grown(s.heap[x], s2.heap[x])
  {
    hide Wf, Unhooks, Detached, OpenList;
    DetachedFacts(s, t);
    KeysSame(s);
    ThreadHere(s, t);
  }

  lemma ThreadHere(s: State, t: Ref)
    requires OpenList(s, t) != []
    ensures t in s.heap && s.heap[t].Thread?
  {
  }

  lemma KeysSame(s: State)
    requires Wf(s, {})
    ensures s.color.Keys == s.heap.Keys
  {
  }

  lemma DetachedWf(s: State, t: Ref, color: map<Ref, Color>)
    requires Wf(s, {}) && OpenList(s, t) != [] && color.Keys == s.color.Keys
    requires forall x :: x in s.heap && s.heap[x].OpenUpval? && x in color && x != OpenList(s, t)[0] ==>
        color[x] != Black
    ensures Wf(Detached(s, t).(color := color), {})
  {
    hide Detached, Unhooks, UpvalsOk, PlacesOk, OpenList;
    var uv := OpenList(s, t)[0];
    var open := OpenList(s, t)[1..];
    DetachedFacts(s, t);
    DetachedKinds(s, t);
    var s0 := Detached(s, t);
    var s' := s0.(color := color);
    UnhookedUpvals(s, t, uv, open, s0, true, Slot(s.heap, t, s.heap[uv].idx));
    DetachedPlaces(s, s', uv);
    DetachedColors(s, s0, s', uv);
  }

  lemma DetachedPlaces(s: State, s': State, uv: Ref)
    requires PlacesOk(s, {}) && s.main in s.heap && s.heap[s.main].Thread? && uv in s.heap && s.heap[uv].OpenUpval?
    requires s'.before == [uv] + s.before && s'.after == s.after && s'.strBefore == s.strBefore
    requires s'.strAfter == s.strAfter
    requires s'.heap.Keys == s.heap.Keys && s'.heap[uv].Upval? && s'.main == s.main
    requires forall x :: x in s.heap && x != uv ==> Grown(s.heap[x], s'.heap[x])
    ensures PlacesOk(s', {}) && s'.heap[s'.main].Thread?
  {
    hide PlacesOk;
    forall x | x != uv
      ensures InStringTable(s'.heap, x) == InStringTable(s.heap, x) && InObjectList(s', x) == InObjectList(s, x)
    {
      if x in s.heap { assert Grown(s.heap[x], s'.heap[x]); }
    }
    assert Grown(s.heap[s.main], s'.heap[s.main]);
    ClosedPlaces(s, uv, s', {});
  }

  lemma DetachedColors(s: State, s0: State, s': State, uv: Ref)
    requires UpvalsOk(s0) && s'.heap == s0.heap && s'.uvhead == s0.uvhead && uv in s.heap
    requires s0.heap.Keys == s.heap.Keys && s0.heap[uv].Upval?
    requires forall x :: x in s.heap && x != uv ==> Grown(s.heap[x], s0.heap[x])
    requires forall x :: x in s.heap && s.heap[x].OpenUpval? && x in s'.color && x != uv ==> s'.color[x] != Black
    ensures UpvalsOk(s')
  {
    forall x | x in s0.heap && s0.heap[x].OpenUpval? && x in s'.color
      ensures s'.color[x] != Black
    {
      assert Grown(s.heap[x], s0.heap[x]);
    }
    hide OpenListsOk, Hooked, HeadOk;
  }

  lemma DetachedMarked(s: State, t: Ref)
    requires Wf(s, {}) && OpenList(s, t) != []
    ensures Marked(Detached(s, t)) == Marked(s)
    ensures Detached(s, t).color.Keys == Detached(s, t).heap.Keys
  {
    DetachedFacts(s, t);
  }

  lemma DetachedTri(s: State, t: Ref, busy: set<Ref>)
    requires Wf(s, {}) && Tri(s, busy) && busy == GrayOpens(s) && OpenList(s, t) != []
    ensures var s2 := Detached(s, t);
            Tri(s2, busy) && Bounded(s2, s2.heap.Keys) && Marked(s2) == Marked(s)
  {
    var s2 := Detached(s, t);
    hide BlackOk, Within, NoDangling, BlacksOk, GrayLists, ListsOk, WeakOk, OpensOk, Wf;
    DetachedMarked(s, t);
    MarkedOpens(s, busy);
    GrayListsSame(s, s2);
    hide Detached, OpenList, Marked;
    DetachedDangling(s, t);
    DetachedBlacks(s, t, busy);
    DetachedLists(s, t, busy);
    DetachedWeak(s, t);
    DetachedOpens(s, t, busy);
    TriBound(s2, busy);
  }

  lemma DetachedOpens(s: State, t: Ref, busy: set<Ref>)
    requires Wf(s, {}) && OpensOk(s, busy) && OpenList(s, t) != []
    requires forall r :: r in s.heap && s.heap[r].OpenUpval? && r in s.color && !s.color[r].White? ==> r in busy
    ensures OpensOk(Detached(s, t), busy)
  {
    DetachedFacts(s, t);
  }

  lemma DetachedWeak(s: State, t: Ref)
    requires Wf(s, {}) && WeakOk(s) && OpenList(s, t) != [] && Marked(Detached(s, t)) == Marked(s)
    ensures WeakOk(Detached(s, t))
  {
    DetachedKinds(s, t);
    hide Wf, Detached, OpenList, WeakOk, Grown;
    WeakStays(s, Detached(s, t), OpenList(s, t)[0]);
  }

  lemma WeakStays(s: State, s2: State, uv: Ref)
    requires s2.heap.Keys == s.heap.Keys && uv in s.heap && s.heap[uv].OpenUpval? && SameLists(s, s2)
    requires forall x :: x in s.heap && x != uv ==> Grown(s.heap[x], s2.heap[x])
    requires WeakOk(s) && Marked(s2) == Marked(s)
    ensures WeakOk(s2)
  {
    hide Grown, Marked;
    forall x | x in s.heap && s.heap[x].Table?
      ensures s2.heap[x] == s.heap[x]
    {
      TableGrown(s.heap[x], s2.heap[x]);
    }
  }

  lemma TableGrown(o: Object, o': Object)
    requires Grown(o, o') && !o.Thread?
    ensures o' == o
  {
  }

  lemma DetachedLists(s: State, t: Ref, busy: set<Ref>)
    requires Wf(s, {}) && ListsOk(s, busy) && OpenList(s, t) != [] && GrayLists(Detached(s, t)) == GrayLists(s)
    requires forall r :: r in s.heap && s.heap[r].OpenUpval? && r in s.color && !s.color[r].White? ==> r in busy
    ensures ListsOk(Detached(s, t), busy)
  {
    DetachedKinds(s, t);
    hide Wf, Detached, OpenList, ListsOk, GrayLists, Grown;
    ListsStay(s, Detached(s, t), OpenList(s, t)[0], busy);
  }

  lemma ListsStay(s: State, s2: State, uv: Ref, busy: set<Ref>)
    requires s.color.Keys == s.heap.Keys && s2.color == s.color && s2.heap.Keys == s.heap.Keys
    requires uv in s.heap && s.heap[uv].OpenUpval? && s2.heap[uv].Upval?
    requires forall x :: x in s.heap && x != uv ==> Grown(s.heap[x], s2.heap[x])
    requires forall r :: r in s.heap && s.heap[r].OpenUpval? && r in s.color && !s.color[r].White? ==> r in busy
    requires ListsOk(s, busy) && GrayLists(s2) == GrayLists(s)
    ensures ListsOk(s2, busy)
  {
    hide GrayLists, Listable, Grown;
    forall r
      ensures Waiting(s2, busy, r) == Waiting(s, busy, r)
      ensures Waiting(s2, busy, r) ==> Listable(s2.heap[r])
    {
      WaitingStays(s, s2, uv, busy, r);
    }
  }

  lemma WaitingStays(s: State, s2: State, uv: Ref, busy: set<Ref>, r: Ref)
    requires s.color.Keys == s.heap.Keys && s2.color == s.color && s2.heap.Keys == s.heap.Keys
    requires uv in s.heap && s.heap[uv].OpenUpval? && s2.heap[uv].Upval?
    requires r in s.heap && r != uv ==> Grown(s.heap[r], s2.heap[r])
    requires s.color[uv].White? || uv in busy
    requires Waiting(s, busy, r) ==> Listable(s.heap[r])
    ensures Waiting(s2, busy, r) == Waiting(s, busy, r)
    ensures Waiting(s2, busy, r) ==> Listable(s2.heap[r])
  {
  }

  lemma DetachedDangling(s: State, t: Ref)
    requires Wf(s, {}) && NoDangling(s) && OpenList(s, t) != []
    ensures NoDangling(Detached(s, t))
  {
    hide Wf, Unhooks, Detached, Within;
    var s2 := Detached(s, t);
    DetachedFacts(s, t);
    var uv := OpenList(s, t)[0];
    assert Within(s.heap, uv, s.heap.Keys);
    assert s2.heap.Keys == s.heap.Keys;
    forall x | x in s2.heap
      ensures Within(s2.heap, x, s2.heap.Keys)
    {
      assert Within(s.heap, x, s.heap.Keys);
      UnhookedWithin(s.heap, t, OpenList(s, t)[1..], uv, x, s.heap.Keys);
    }
  }

  lemma UnhookedWithin(h: map<Ref, Object>, t: Ref, l: seq<Ref>, uv: Ref, x: Ref, p: set<Ref>)
    requires t in h && h[t].Thread? && uv in h && h[uv].OpenUpval? && h[uv].thread == t && x in h
    requires Within(h, uv, p) && Within(h, x, p)
    ensures Within(h[t := h[t].(open := l)][uv := Upval(Slot(h, t, h[uv].idx))], x, p)
  {
  }

  lemma DetachedBlacks(s: State, t: Ref, busy: set<Ref>)
    requires Wf(s, {}) && BlacksOk(s, busy) && OpenList(s, t) != [] && Marked(Detached(s, t)) == Marked(s)
    ensures BlacksOk(Detached(s, t), busy)
  {
    var s2 := Detached(s, t);
    var uv := OpenList(s, t)[0];
    DetachedKinds(s, t);
    hide Wf, Detached, OpenList, BlackOk, Grown, Marked;
    forall x | x in s2.heap && x in s2.color && s2.color[x] == Black && x !in busy
      ensures BlackOk(s2, x)
    {
      BlackStays(s, s2, x);
    }
  }

  lemma BlackStays(s: State, s2: State, x: Ref)
    requires x in s.heap && BlackOk(s, x) && x in s2.heap && Grown(s.heap[x], s2.heap[x]) && Marked(s2) == Marked(s)
    ensures BlackOk(s2, x)
  {
    hide Marked;
  }

  /** A gray upvalue that is closed turns black and its value is marked. */
  lemma CloseGray(s: State, t: Ref)
    requires Inv(s) && s.phase == Propagate && OpenList(s, t) != [] && OpenList(s, t)[0] in GrayOpens(s)
    ensures Inv(CloseFirst(s, t))
  {
    CloseGrayFacts(s, t);
    var uv := OpenList(s, t)[0];
    var v := Slot(s.heap, t, s.heap[uv].idx);
    var s3 := Paint(Detached(s, t), uv, Black);
    hide Inv, Detached, CloseFirst, MarkValue, Paint, BeingClosed, Tri, OnlyAllWeak;
    CloseGrayStart(s, t);
    CloseFirstMarks(s, t);
    FinishClose(s3, uv, v, GrayOpens(s));
  }

  /** The upvalue has been closed and is black, but its value may be unmarked. */
  ghost predicate BeingClosed(s: State, uv: Ref, v: Value, opens: set<Ref>) {
    && Tri(s, opens) && Wf(s, {}) && OnlyAllWeak(s) && s.main in Marked(s)
    && AllIn(s.globals, s.heap.Keys) && s.phase == Propagate && In(v, s.heap.Keys)
    && uv in opens && uv in s.heap && s.heap[uv] == Upval(v) && uv in s.color && s.color[uv] == Black
    && forall r :: r in opens - {uv} ==> r in s.heap && s.heap[r].OpenUpval?
  }

  lemma FinishClose(s: State, uv: Ref, v: Value, opens: set<Ref>)
    requires BeingClosed(s, uv, v, opens)
    ensures Inv(MarkValue(s, v))
  {
    hide Tri, Inv, Bounded, OnlyAllWeak, Wf, Visits, MarkValue, Marks, Load, Marked, Marking;
    TriBound(s, opens);
    var s4 := MarkValue(s, v);
    MarkValueOk(s, v, opens, s.heap.Keys);
    assert opens - {uv} + {uv} == opens;
    CloseMarked(s, s4, uv, opens - {uv}, v);
    MarkValueVisits(s, v);
    ClosedInv(s, s4, opens);
  }

  lemma CloseGrayStart(s: State, t: Ref)
    requires Inv(s) && s.phase == Propagate && OpenList(s, t) != [] && OpenList(s, t)[0] in GrayOpens(s)
    ensures var uv := OpenList(s, t)[0];
            uv in s.heap && s.heap[uv].OpenUpval?
            && BeingClosed(Paint(Detached(s, t), uv, Black), uv, Slot(s.heap, t, s.heap[uv].idx), GrayOpens(s))
  {
    hide Inv, Unhooks, Tri, Bounded, OnlyAllWeak, Wf, Detached, Within, Paint, BeingClosed, Marked, OpenList;
    var uv := OpenList(s, t)[0];
    var opens := GrayOpens(s);
    var s2 := Detached(s, t);
    CloseGrayFacts(s, t);
    DetachedTri(s, t, opens);
    PaintDetached(s2, uv, opens, s2.color, s2.heap) by { DetachedKinds(s, t); }
    ClosedOpens(s, t, opens);
    DetachedBlack(s, t);
    DetachedRest(s, t);
    assert BeingClosed(Paint(s2, uv, Black), uv, Slot(s.heap, t, s.heap[uv].idx), opens) by {
      OpenBeingClosed(s, s2, t, uv, opens);
    }
  }

  lemma DetachedBlack(s: State, t: Ref)
    requires Wf(s, {}) && OpenList(s, t) != []
    ensures Wf(Paint(Detached(s, t), OpenList(s, t)[0], Black), {})
  {
    var uv := OpenList(s, t)[0];
    DetachedKinds(s, t);
    assert NeverBlack(s.heap, s.color);
    assert Paint(Detached(s, t), uv, Black) == Detached(s, t).(color := s.color[uv := Black]);
    hide Detached, UpvalsOk, PlacesOk;
    DetachedWf(s, t, s.color[uv := Black]);
  }

  lemma DetachedRest(s: State, t: Ref)
    requires Wf(s, {}) && OpenList(s, t) != [] && OnlyAllWeak(s)
    ensures var uv := OpenList(s, t)[0];
            var s2 := Detached(s, t);
            && OnlyAllWeak(Paint(s2, uv, Black)) && s2.phase == s.phase && s2.globals == s.globals && s2.main == s.main
            && s2.heap.Keys == s.heap.Keys && uv in s.heap && uv in s2.heap && s.heap[uv].OpenUpval?
            && s2.heap[uv] == Upval(Slot(s.heap, t, s.heap[uv].idx)) && s2.color == s.color && uv in s.color
  {
    DetachedFacts(s, t);
    DetachedKinds(s, t);
    hide Wf, Unhooks, Detached;
    OnlyAllWeakKinds(s, Detached(s, t), OpenList(s, t)[0]);
  }

  lemma OpenBeingClosed(s: State, s2: State, t: Ref, uv: Ref, opens: set<Ref>)
    requires var s3 := Paint(s2, uv, Black);
             && Tri(s3, opens) && Wf(s3, {}) && OnlyAllWeak(s3) && Marked(s3) == Marked(s) &&
                 s3.color == s2.color[uv := Black]
    requires s.main in Marked(s) && AllIn(s.globals, s.heap.Keys) && s.phase == Propagate
    requires s2.phase == s.phase && s2.globals == s.globals && s2.main == s.main && s2.heap.Keys == s.heap.Keys
    requires uv in opens && uv in s.heap && s.heap[uv].OpenUpval? && uv in s2.heap
    requires In(Slot(s.heap, t, s.heap[uv].idx), s.heap.Keys)
    requires s2.heap[uv] == Upval(Slot(s.heap, t, s.heap[uv].idx))
    requires forall r :: r in opens - {uv} ==> r in s2.heap && s2.heap[r].OpenUpval?
    ensures BeingClosed(Paint(s2, uv, Black), uv, Slot(s.heap, t, s.heap[uv].idx), opens)
  {
    hide Tri, Wf, OnlyAllWeak, Marked;
  }

  lemma PaintDetached(s2: State, uv: Ref, opens: set<Ref>, color: map<Ref, Color>, heap: map<Ref, Object>)
    requires Tri(s2, opens) && Bounded(s2, s2.heap.Keys) && uv in opens && uv in s2.heap && s2.heap[uv].Upval?
    requires s2.color == color
    ensures Tri(Paint(s2, uv, Black), opens) && Marked(Paint(s2, uv, Black)) == Marked(s2)
    ensures Paint(s2, uv, Black) == s2.(color := color[uv := Black])
  {
    hide Tri, Bounded;
    BusyColor(s2, uv, Black, opens, s2.heap.Keys);
  }

  lemma OnlyAllWeakKinds(s: State, s2: State, uv: Ref)
    requires OnlyAllWeak(s) && s2.allweak == s.allweak && s2.heap.Keys == s.heap.Keys && uv in s.heap
    requires s.heap[uv].OpenUpval?
    requires forall x :: x in s.heap && x != uv ==> Grown(s.heap[x], s2.heap[x])
    ensures OnlyAllWeak(s2) && OnlyAllWeak(Paint(s2, uv, Black))
  {
    forall r | r in s2.allweak
      ensures r in s2.heap && s2.heap[r].Table? && s2.heap[r].mode.AllWeak?
    {
      assert Grown(s.heap[r], s2.heap[r]);
    }
  }

  lemma CloseGrayFacts(s: State, t: Ref)
    requires Inv(s) && s.phase == Propagate && OpenList(s, t) != [] && OpenList(s, t)[0] in GrayOpens(s)
    ensures Tri(s, GrayOpens(s)) && OnlyAllWeak(s) && s.main in Marked(s) && Wf(s, {}) && AllIn(s.globals, s.heap.Keys)
    ensures var uv := OpenList(s, t)[0];
            uv in s.heap && s.heap[uv].OpenUpval? && s.heap[uv].thread == t &&
                In(Slot(s.heap, t, s.heap[uv].idx), s.heap.Keys)
    ensures forall x :: x in s.heap && s.heap[x].OpenUpval? && x in s.color ==> s.color[x] != Black
  {
    NoDead(s, GrayOpens(s));
    DetachedFacts(s, t);
    assert Within(s.heap, OpenList(s, t)[0], s.heap.Keys);
    assert NeverBlack(s.heap, s.color);
  }

  lemma CloseFirstMarks(s: State, t: Ref)
    requires Wf(s, {}) && s.phase == Propagate && OpenList(s, t) != [] && OpenList(s, t)[0] in GrayOpens(s)
    ensures var uv := OpenList(s, t)[0];
            uv in s.heap && s.heap[uv].OpenUpval?
            && CloseFirst(s, t) == MarkValue(Paint(Detached(s, t), uv, Black), Slot(s.heap, t, s.heap[uv].idx))
  {
    DetachedFacts(s, t);
    hide MarkValue, Wf, Unhooks;
  }

  lemma ClosedOpens(s: State, t: Ref, opens: set<Ref>)
    requires Wf(s, {}) && OpenList(s, t) != [] && opens == GrayOpens(s)
    ensures forall r :: r in opens - {OpenList(s, t)[0]} ==>
        r in Detached(s, t).heap && Detached(s, t).heap[r].OpenUpval?
  {
    DetachedFacts(s, t);
  }

  lemma CloseMarked(s3: State, s4: State, uv: Ref, opens: set<Ref>, v: Value)
    requires Tri(s4, opens + {uv}) && uv !in opens && Bounded(s4, s3.heap.Keys) && Marks(s3, s4) && In(v, Marked(s4))
    requires uv in s3.heap && s3.heap[uv] == Upval(v) && uv in s3.color && s3.color[uv] == Black
    requires OnlyAllWeak(s3) && s3.main in Marked(s3)
    requires forall r :: r in opens ==> r in s3.heap && s3.heap[r].OpenUpval?
    ensures Marking(s4)
  {
    MarkedHeap(s3, s4, uv);
    assert s4.allweak == s3.allweak && s4.main == s3.main;
    BlackUpval(s4, uv);
    OnlyAllWeakSame(s3, s4);
    hide BlackOk, Bounded, Tri, OnlyAllWeak;
    DoneBlack(s4, uv, opens, s3.heap.Keys);
    MoreBusy(s4, opens);
  }

  lemma ClosedInv(s3: State, s4: State, opens: set<Ref>)
    requires Wf(s3, {}) && Tri(s3, opens) && AllIn(s3.globals, s3.heap.Keys) && s3.phase == Propagate
    requires Visits(s3, s4) && Marking(s4)
    ensures Inv(s4)
  {
    assert s3.main in s3.heap && s3.running in s3.heap;
    TriLive(s3, opens);
    MarkStepInv(s3, s4, opens);
  }

  /** A white upvalue that is closed stays white. */
  lemma CloseWhite(s: State, t: Ref)
    requires Inv(s) && s.phase == Propagate && OpenList(s, t) != [] && OpenList(s, t)[0] !in GrayOpens(s)
    ensures Inv(CloseFirst(s, t))
  {
    var uv := OpenList(s, t)[0];
    var opens := GrayOpens(s);
    var s2 := Detached(s, t);
    DetachedFacts(s, t);
    DetachedKinds(s, t);
    CloseWhiteFacts(s, t);
    DetachedTri(s, t, opens);
    DetachedWf(s, t, s.color);
    assert s2.(color := s.color) == s2;
    hide Tri, Inv, Detached, Bounded, GrayOpens, Wf, Unhooks, CloseFirst, OnlyAllWeak;
    OnlyAllWeakKinds(s, s2, uv);
    MoreBusyKinds(s, s2, uv, opens);
    TriLive(s2, opens);
  }

  lemma MoreBusyKinds(s: State, s2: State, uv: Ref, opens: set<Ref>)
    requires opens == GrayOpens(s) && uv !in opens && s2.color == s.color && s2.heap.Keys == s.heap.Keys
    requires Tri(s2, opens)
    requires uv in s2.heap && s2.heap[uv].Upval?
    requires forall x :: x in s.heap && x != uv ==> Grown(s.heap[x], s2.heap[x])
    ensures Tri(s2, GrayOpens(s2))
  {
    forall x | x in opens
      ensures x in s2.heap && s2.heap[x].OpenUpval?
    {
      assert Grown(s.heap[x], s2.heap[x]);
    }
    hide Tri;
    MoreBusy(s2, opens);
  }

  lemma CloseWhiteFacts(s: State, t: Ref)
    requires Inv(s) && s.phase == Propagate && OpenList(s, t) != [] && OpenList(s, t)[0] !in GrayOpens(s)
    ensures Tri(s, GrayOpens(s)) && OnlyAllWeak(s) && s.main in Marked(s) && Wf(s, {}) && AllIn(s.globals, s.heap.Keys)
    ensures CloseFirst(s, t) == Detached(s, t) && s.main in s.heap && s.running in s.heap
    ensures forall x :: x in s.heap && s.heap[x].OpenUpval? && x in s.color ==> s.color[x] != Black
  {
    NoDead(s, GrayOpens(s));
    DetachedFacts(s, t);
    assert OpenList(s, t)[0] in Alive(s);
    assert NeverBlack(s.heap, s.color);
  }

  lemma CloseFirstInv(s: State, t: Ref)
    requires Inv(s) && OpenList(s, t) != []
    ensures Inv(CloseFirst(s, t))
  {
    if s.phase == Propagate {
      if OpenList(s, t)[0] in GrayOpens(s) { CloseGray(s, t); } else { CloseWhite(s, t); }
    } else {
      assert Wf(s, {}) && Live(s) && Swept(s, {}) by { assert AllWhite(s) ==> Swept(s, {}); }
      hide Wf, Live, Swept, Shrinks;
      CloseFirstOk(s, t, {}, {});
      LiveShrinksWf(s, CloseFirst(s, t));
      CloseFirstWhite(s, t);
    }
  }

  lemma LiveShrinksWf(s: State, s': State)
    requires Live(s) && Shrinks(s, s') && Wf(s', {})
    ensures Live(s')
  {
    LiveShrinks(s, s');
  }

  lemma CloseFirstWhite(s: State, t: Ref)
    requires OpenList(s, t) != [] && !KeepsInvariant(s.phase) && Wf(s, {})
    ensures AllWhite(s) ==> AllWhite(CloseFirst(s, t))
  {
    DetachedFacts(s, t);
  }

  /** `luaF_close` */
  lemma {:induction false} CloseInv(s: State, t: Ref, level: nat)
    requires Inv(s)
    ensures Inv(CloseUpvals(s, t, level))
    decreases |OpenList(s, t)|
  {
    hide Inv, CloseFirst;
    if OpenList(s, t) != [] && Level(s, OpenList(s, t)[0]) >= level {
      CloseFirstShorter(s, t);
      CloseFirstInv(s, t);
      CloseInv(CloseFirst(s, t), t, level);
    }
  }

  // ----- which upvalues are closed -----

  /** What becomes of the object `x` when the upvalues of `t` from `level` on are closed. */
  predicate AfterClose(s: State, s': State, t: Ref, level: nat, x: Ref)
    requires x in s.heap
  {
    if x == t then x in s'.heap &&
        s'.heap[x] == if s.heap[x].Thread? then s.heap[x].(open := OpenList(s', t)) else s.heap[x]
    else if x in OpenList(s, t) && IdxOf(s.heap, x) >= level then
      if Dead(s, x) then x !in s'.heap
      else x in s'.heap && s'.heap[x] == Upval(Slot(s.heap, t, IdxOf(s.heap, x)))
    else x in s'.heap && s'.heap[x] == s.heap[x]
  }

  /** The upvalues of the slots below `level` stay in the list; the others have the values of their slots, or are freed
      when they were dead. Nothing else changes. */
  ghost predicate ClosedFrom(s: State, s': State, t: Ref, level: nat) {
    && s'.heap.Keys <= s.heap.Keys
    && (forall x :: x in OpenList(s', t) <==> x in OpenList(s, t) && IdxOf(s.heap, x) < level)
    && forall x :: x in s.heap ==> AfterClose(s, s', t, level, x)
  }

  /** `luaF_close` closes exactly the upvalues from the level on. */
  lemma {:induction false} CloseExact(s: State, t: Ref, level: nat)
    requires Inv(s)
    ensures ClosedFrom(s, CloseUpvals(s, t, level), t, level)
    decreases |OpenList(s, t)|
  {
    hide Inv, CloseFirst, ClosedFrom, Descending;
    if OpenList(s, t) == [] {
      NothingClosed(s, t, level);
    } else {
      FirstHighest(s, t);
      if Level(s, OpenList(s, t)[0]) < level {
        NothingClosed(s, t, level);
      } else {
        var s1 := CloseFirst(s, t);
        CloseFirstShorter(s, t);
        CloseFirstInv(s, t);
        CloseFirstExact(s, t);
        CloseExact(s1, t, level);
        hide OpenList, Level, CloseUpvals;
        ClosedOneMore(s, s1, CloseUpvals(s1, t, level), t, level);
      }
    }
  }

  lemma FirstHighest(s: State, t: Ref)
    requires Inv(s) && OpenList(s, t) != []
    ensures var l := OpenList(s, t);
      && t in s.heap && s.heap[t].Thread? && Level(s, l[0]) == IdxOf(s.heap, l[0])
      && (forall x :: x in l ==> x in s.heap && s.heap[x].OpenUpval? && s.heap[x].thread == t && x != t)
      && (forall x :: x in l[1..] ==> x != l[0])
      && forall x :: x in l ==> IdxOf(s.heap, x) <= IdxOf(s.heap, l[0])
  {
    hide Inv, OpenListOk, Hooked;
    var l := OpenList(s, t);
    OpenHere(s, t);
    OpenMembers(s.heap, t);
    assert l[0] in l;
    forall x | x in l
      ensures IdxOf(s.heap, x) <= IdxOf(s.heap, l[0])
      ensures x in l[1..] ==> x != l[0]
    {
      if x in l[1..] {
        var j :| 0 <= j < |l[1..]| && l[1..][j] == x;
        assert l[j + 1] == x;
      } else {
        assert l == [l[0]] + l[1..];
      }
    }
  }

  lemma NothingClosed(s: State, t: Ref, level: nat)
    requires forall x :: x in OpenList(s, t) ==> IdxOf(s.heap, x) < level
    ensures ClosedFrom(s, s, t, level)
  {
  }

  /** One round of the loop. */
  ghost predicate FirstClosed(s: State, s1: State, t: Ref)
    requires OpenList(s, t) != []
  {
    var uv := OpenList(s, t)[0];
    && s1.heap.Keys == (if Dead(s, uv) then s.heap.Keys - {uv} else s.heap.Keys)
    && OpenList(s1, t) == OpenList(s, t)[1..]
    && t in s.heap && s.heap[t].Thread? && t in s1.heap && s1.heap[t] == s.heap[t].(open := OpenList(s, t)[1..])
    && (uv in s.heap && !Dead(s, uv) ==> uv in s1.heap && s1.heap[uv] == Upval(Slot(s.heap, t, Level(s, uv))))
    && (forall x :: x in s.heap && x != uv && x != t ==> x in s1.heap && s1.heap[x] == s.heap[x])
    && forall x :: x in s.heap && x != uv ==> Dead(s1, x) == Dead(s, x)
  }

  lemma CloseFirstExact(s: State, t: Ref)
    requires Inv(s) && OpenList(s, t) != []
    ensures FirstClosed(s, CloseFirst(s, t), t)
  {
    hide Inv, CloseFirst, Dead, OpenList, FirstClosed;
    FirstHighest(s, t);
    var uv := OpenList(s, t)[0];
    assert uv in s.heap && s.heap[uv].OpenUpval? && s.heap[uv].thread == t && uv != t;
    if Dead(s, uv) { FreedHeap(s, t); } else { ClosedHeap(s, t); }
    OthersDead(s, t);
    FirstClosedHeap(s, CloseFirst(s, t), t);
  }

  lemma FirstClosedHeap(s: State, s1: State, t: Ref)
    requires OpenList(s, t) != [] && t in s.heap && s.heap[t].Thread?
    requires var uv := OpenList(s, t)[0]; uv in s.heap && s.heap[uv].OpenUpval? && s.heap[uv].thread == t && uv != t
    requires var uv := OpenList(s, t)[0];
      var h := s.heap[t := s.heap[t].(open := OpenList(s, t)[1..])];
      s1.heap == if Dead(s, uv) then h - {uv} else h[uv := Upval(Slot(s.heap, t, s.heap[uv].idx))]
    requires forall x :: x in s.heap && x != OpenList(s, t)[0] ==> Dead(s1, x) == Dead(s, x)
    ensures FirstClosed(s, s1, t)
  {
    hide Dead;
  }

  /** What is dead stays so, but for the closed upvalue. */
  lemma OthersDead(s: State, t: Ref)
    requires Inv(s) && OpenList(s, t) != []
    requires var uv := OpenList(s, t)[0];
      && CloseFirst(s, t).phase == s.phase
      && forall x :: x in s.heap && x != uv ==> x in CloseFirst(s, t).heap
    ensures forall x :: x in s.heap && x != OpenList(s, t)[0] ==> Dead(CloseFirst(s, t), x) == Dead(s, x)
  {
    if s.phase == Propagate {
      CloseFirstInv(s, t);
      hide Inv, CloseFirst, Dead, OpenList;
      NothingDead(s);
      NothingDead(CloseFirst(s, t));
    } else {
      MarkedBefore(s);
      hide Inv, CloseFirst, Dead, OpenList;
      CloseFirstDead(s, t);
    }
  }

  lemma FreedHeap(s: State, t: Ref)
    requires OpenList(s, t) != [] && Dead(s, OpenList(s, t)[0])
    ensures CloseFirst(s, t).phase == s.phase && t in s.heap && s.heap[t].Thread?
    ensures CloseFirst(s, t).heap == s.heap[t := s.heap[t].(open := OpenList(s, t)[1..])] - {OpenList(s, t)[0]}
  {
  }

  lemma ClosedHeap(s: State, t: Ref)
    requires OpenList(s, t) != [] && t in s.heap && s.heap[t].Thread? && !Dead(s, OpenList(s, t)[0])
    requires var uv := OpenList(s, t)[0]; uv in s.heap && s.heap[uv].OpenUpval? && s.heap[uv].thread == t
    ensures CloseFirst(s, t).phase == s.phase
    ensures var uv := OpenList(s, t)[0];
      CloseFirst(s, t).heap ==
          s.heap[t := s.heap[t].(open := OpenList(s, t)[1..])][uv := Upval(Slot(s.heap, t, s.heap[uv].idx))]
  {
    var uv := OpenList(s, t)[0];
    var s2 := Detached(s, t);
    DetachedIs(s, t);
    assert CloseFirst(s, t) == CheckUpvalColor(s2, uv);
    hide CloseFirst, Detached, OpenList, MarkValue;
    MarkValueMarks(Blacken(s2, uv), s2.heap[uv].value);
  }

  lemma NothingDead(s: State)
    requires Inv(s) && s.phase == Propagate
    ensures forall x :: x in s.heap ==> !Dead(s, x)
  {
    assert Tri(s, GrayOpens(s));
    hide Inv, Tri, GrayOpens;
    NoDead(s, GrayOpens(s));
  }

  lemma MarkedBefore(s: State)
    requires Inv(s) && s.phase != Propagate
    ensures !KeepsInvariant(s.phase)
  {
  }

  /** Outside marking only the colour of the closed upvalue may change. */
  lemma CloseFirstDead(s: State, t: Ref)
    requires OpenList(s, t) != [] && !KeepsInvariant(s.phase)
    ensures forall x :: x != OpenList(s, t)[0] ==> Dead(CloseFirst(s, t), x) == Dead(s, x)
  {
  }

  /** The other upvalues of the list are dealt with as if the first had not been there. */
  lemma ClosedOneMore(s: State, s1: State, s': State, t: Ref, level: nat)
    requires OpenList(s, t) != [] && t in s.heap && s.heap[t].Thread? && FirstClosed(s, s1, t)
    requires forall x :: x in OpenList(s, t) ==> x in s.heap && s.heap[x].OpenUpval? && s.heap[x].thread == t && x != t
    requires forall x :: x in OpenList(s, t)[1..] ==> x != OpenList(s, t)[0]
    requires IdxOf(s.heap, OpenList(s, t)[0]) >= level && ClosedFrom(s1, s', t, level)
    ensures ClosedFrom(s, s', t, level)
  {
  }
}

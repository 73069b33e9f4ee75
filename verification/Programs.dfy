/** The remaining operations of a program, and whole runs of a program and the collector. */
module Programs {
  import opened CollectorState
  import opened Tricolor
  import opened Traversal
  import opened Propagation
  import opened Sweeping
  import opened CollectorInvariant
  import opened SweepingProof
  import opened CollectorSteps
  import opened Mutator

  // ----- operations -----

  /** `luaC_newobj`: a new object has the current white. A short string may be put into a part of the
      string table that is still to be swept. */
  function Allocate(s: State, r: Ref, o: Object, late: bool): State {
    var s1 := s.(heap := s.heap[r := o], color := s.color[r := White(s.current)]);
    if o != Str(true) then s1.(before := [r] + s.before)
    else if late && s.phase == SweepString then s1.(strAfter := [r] + s.strAfter)
    else s1.(strBefore := [r] + s.strBefore)
  }

  /** `internshrstr` finds the string: a dead one is used again. */
  function Resurrect(s: State, r: Ref): (s': State)
    ensures s'.heap == s.heap
  {
    if Dead(s, r) then Whiten(s, r) else s
  }

  /** The search of `luaF_findupval`: the first open upvalue not above `level`. */
  function OpenPosition(s: State, l: seq<Ref>, level: nat): (i: nat)
    ensures i <= |l|
    decreases |l|
  {
    if l == [] || Level(s, l[0]) <= level then 0 else 1 + OpenPosition(s, l[1..], level)
  }

  predicate Captured(s: State, t: Ref, level: nat) {
    var i := OpenPosition(s, OpenList(s, t), level);
    i < |OpenList(s, t)| && Level(s, OpenList(s, t)[i]) == level
  }

  /** `luaF_findupval`: shares the open upvalue of the slot, or creates it as `r`. */
  function FindUpval(s: State, t: Ref, level: nat, r: Ref): (State, Ref)
    requires t in s.heap && s.heap[t].Thread?
  {
    var l := OpenList(s, t);
    var i := OpenPosition(s, l, level);
    if Captured(s, t, level) then (Resurrect(s, l[i]), l[i])
    else
      (s.(heap := s.heap[t := s.heap[t].(open := l[..i] + [r] + l[i..])][r := OpenUpval(t, level)],
          color := s.color[r := White(s.current)], uvhead := [r] + s.uvhead), r)
  }

  function SetSlot(s: State, t: Ref, i: nat, v: Value): State
    requires t in s.heap && s.heap[t].Thread? && i < |s.heap[t].stack|
  {
    Put(s, t, s.heap[t].(stack := s.heap[t].stack[i := v]))
  }

  /** The end of `pushclosure`: the barrier comes before the store. */
  function SetCache(s: State, p: Ref, c: Value): State
    requires p in s.heap && s.heap[p].Proto?
  {
    var s1 := BarrierProto(s, p, c);
    if p in s1.heap && s1.heap[p].Proto? then Put(s1, p, s1.heap[p].(cache := c)) else s1
  }

  // ----- stores after a barrier -----

  /** A store into an object that is not black, or of a reference that is marked. */
  lemma CompleteOk(s: State, x: Ref, o': Object, v: Value)
    requires Stored(s, x, o', [v]) && (IsBlack(s, x) ==> !IsWhite(s, v))
    ensures Inv(Put(s, x, o'))
  {
    var s1 := Put(s, x, o');
    StoredRest(s, x, o', [v]);
    if s.phase == Propagate {
      StoredTri(s, x, o', [v]);
      hide Stored, Wf, Live, Tri, Bounded, GrayOpens, OnlyAllWeak, Marked;
      if IsBlack(s, x) { CompleteBlack(s, x, o', v); }
    }
  }

  lemma StoredHere(s: State, x: Ref, o': Object, vs: seq<Value>)
    requires Stored(s, x, o', vs)
    ensures x in s.heap
  {
    hide Inv, Adds, Alive;
  }

  lemma AloneMarked(s: State, x: Ref, v: Value)
    ensures OthersMarked(s, x, [v], v)
  {
  }

  lemma CompleteBlack(s: State, x: Ref, o': Object, v: Value)
    requires Stored(s, x, o', [v]) && IsBlack(s, x) && !IsWhite(s, v) && s.phase == Propagate
    ensures Inv(Put(s, x, o'))
  {
    hide Stored, Wf, Live, Tri, Bounded, GrayOpens, OnlyAllWeak, Marked, IsWhite, Inv, OthersMarked;
    var s1 := Put(s, x, o');
    StoredHere(s, x, o', [v]);
    AloneMarked(s, x, v);
    StoredRest(s, x, o', [v]);
    StoredTri(s, x, o', [v]);
    BlackHere(s, s1, x, o', [v]);
    OpensKind(s1);
    WhiteSame(s, x, o', v);
    BackComplete(s, s1, x, o', [v], v);
  }

  lemma WhiteSame(s: State, x: Ref, o': Object, v: Value)
    requires x in s.heap
    ensures IsWhite(Put(s, x, o'), v) == IsWhite(s, v)
  {
  }

  /** Any object may be visited again. */
  lemma BusyToo(s: State, busy: set<Ref>, x: Ref)
    requires Tri(s, busy) && x in s.heap && x in s.color && s.color[x] == Black
    ensures Tri(s, busy + {x})
  {
    hide BlackOk, GrayLists, Within, WeakOk;
    assert forall r :: Waiting(s, busy + {x}, r) == Waiting(s, busy, r);
  }

  lemma BarrierProtoOk(s: State, p: Ref, c: Value)
    requires Inv(s) && p in s.heap && s.heap[p].Proto? && In(c, s.heap.Keys)
    ensures var s1 := BarrierProto(s, p, c);
            Inv(s1) && s1.heap == s.heap && s1.phase == s.phase && Alive(s) <= Alive(s1) && s1.allweak == s.allweak
            && (IsBlack(s1, p) ==> !IsWhite(s1, c))
  {
    if IsBlack(s, p) {
      if s.phase == Propagate {
        BarrierProtoMarking(s, p, c);
      } else {
        BarrierProtoSweeping(s, p, c);
      }
    }
  }

  lemma BarrierProtoSweeping(s: State, p: Ref, c: Value)
    requires Inv(s) && p in s.heap && s.heap[p].Proto? && IsBlack(s, p) && s.phase != Propagate
    ensures var s1 := BarrierProto(s, p, c);
            Inv(s1) && s1.heap == s.heap && s1.phase == s.phase && Alive(s) <= Alive(s1) && s1.allweak == s.allweak
            && (IsBlack(s1, p) ==> !IsWhite(s1, c))
  {
    assert s.phase == Pause ==> AllWhite(s);
    assert Wf(s, {}) && Live(s) && p in Alive(s);
    if s.heap[p].cache == Nil {
      assert BarrierProto(s, p, c) == if IsWhite(s, c) then Whiten(s, p) else s by { WhitenBarrier(s, p); }
      hide Inv, Wf, Live, BarrierProto;
      WhitenBarrier(s, p);
      WhitenAlive(s, p);
    } else {
      assert BarrierProto(s, p, c) == LinkAgain(Regray(s, p), p);
      hide Inv, Wf, Live, BarrierProto;
      BackSweeping(s, p);
      GrayAgainRest(s, p);
      RegrayColor(s, p);
    }
  }

  lemma WhitenAlive(s: State, p: Ref)
    requires p in Alive(s)
    ensures Alive(Whiten(s, p)) == Alive(s) && !IsBlack(Whiten(s, p), p)
  {
  }

  lemma BarrierProtoMarking(s: State, p: Ref, c: Value)
    requires Inv(s) && p in s.heap && s.heap[p].Proto? && IsBlack(s, p) && s.phase == Propagate && In(c, s.heap.Keys)
    ensures var s1 := BarrierProto(s, p, c);
            Inv(s1) && s1.heap == s.heap && s1.phase == s.phase && Alive(s) <= Alive(s1) && s1.allweak == s.allweak
            && (IsBlack(s1, p) ==> !IsWhite(s1, c))
  {
    var s1 := BarrierProto(s, p, c);
    var opens := GrayOpens(s);
    assert Tri(s, opens) && OnlyAllWeak(s) && s.main in Marked(s) && Wf(s, {}) && Live(s);
    OpensKind(s);
    NoDead(s, opens);
    if s.heap[p].cache == Nil {
      assert s1 == MarkValue(s, c);
      hide Inv, Tri, Wf, Live, GrayOpens, MarkValue, BarrierProto, Visits, OnlyAllWeak;
      ForwardOnly(s, c, opens);
    } else {
      assert s1 == LinkAgain(Regray(s, p), p);
      hide Inv, Tri, Wf, Live, GrayOpens, BarrierProto, OnlyAllWeak, Alive, Marked;
      ProtoAgain(s, p, opens);
    }
  }

  /** The backward case: the black prototype becomes gray again. */
  lemma ProtoAgain(s: State, p: Ref, opens: set<Ref>)
    requires Inv(s) && p in s.heap && s.heap[p].Proto? && IsBlack(s, p) && s.phase == Propagate && opens == GrayOpens(s)
    requires Tri(s, opens) && forall r :: r in opens ==> r in s.heap && s.heap[r].OpenUpval?
    ensures var s1 := LinkAgain(Regray(s, p), p);
            Inv(s1) && Alive(s1) == Alive(s) && !IsBlack(s1, p)
  {
    var s1 := LinkAgain(Regray(s, p), p);
    assert OnlyAllWeak(s) && s.main in Marked(s) && Wf(s, {}) && Live(s);
    BusyToo(s, opens, p);
    TriBound(s, opens);
    assert Alive(s1) == Alive(s) by { BusyAlive(s, p, opens); GrayAgainRest(s, p); }
    hide Inv, Tri, Wf, Live, GrayOpens, Bounded, BarrierProto;
    GrayAgain(s, p, opens);
  }

  lemma ForwardOnly(s: State, c: Value, opens: set<Ref>)
    requires Tri(s, opens) && opens == GrayOpens(s) && OnlyAllWeak(s) && s.main in Marked(s) && Wf(s, {}) && Live(s)
    requires s.phase == Propagate && In(c, s.heap.Keys)
    requires forall r :: r in opens ==> r in s.heap && s.heap[r].OpenUpval?
    ensures var s1 := MarkValue(s, c);
            Inv(s1) && s1.heap == s.heap && s1.phase == s.phase && Alive(s) <= Alive(s1) && s1.allweak == s.allweak
            && !IsWhite(s1, c)
  {
    hide Tri, Wf, Live, Bounded, MarkValue, OnlyAllWeak, Visits, GrayOpens;
    var s1 := MarkValue(s, c);
    TriBound(s, opens);
    NoDead(s, opens);
    MarkValueOk(s, c, opens, s.heap.Keys);
    MarkValueVisits(s, c);
    MarksHeap(s, s1);
    MoreBusy(s1, opens);
    OnlyAllWeakSame(s, s1);
    MarkStepInv(s, s1, opens);
    NoDead(s1, opens);
    assert In(c, Marked(s1));
  }

  lemma SetCacheOk(s: State, p: Ref, c: Value)
    requires Inv(s) && p in Alive(s) && p in s.heap && s.heap[p].Proto? && In(c, Alive(s))
    ensures Inv(SetCache(s, p, c))
  {
    AliveIn(s, c);
    BarrierProtoOk(s, p, c);
    var s1 := BarrierProto(s, p, c);
    var o' := s1.heap[p].(cache := c);
    CacheAdds(s1, p, c);
    hide Inv, Adds, BarrierProto;
    OneIn(c, Alive(s1));
    CompleteOk(s1, p, o', c) by { assert KeepsWeak(s1, p, o') by { NotWeak(s1, p); } }
  }

  lemma NotWeak(s: State, p: Ref)
    requires Inv(s) && p in s.heap && !s.heap[p].Table?
    ensures s.phase == Propagate ==> p !in s.allweak
  {
    if s.phase == Propagate { assert OnlyAllWeak(s); }
  }

  lemma AliveIn(s: State, v: Value)
    requires In(v, Alive(s))
    ensures In(v, s.heap.Keys)
  {
  }

  lemma CacheAdds(s: State, p: Ref, c: Value)
    requires p in s.heap && s.heap[p].Proto?
    ensures Adds(s, p, s.heap[p].(cache := c), [c])
  {
    forall q: set<Ref> | AllIn([c], q) && Within(s.heap, p, q)
      ensures Within(s.heap[p := s.heap[p].(cache := c)], p, q)
    {
      assert In([c][0], q);
    }
  }

  // ----- roots -----

  lemma RootsChange(s: State, s': State)
    requires Inv(s) && s' == s.(globals := s'.globals, running := s'.running)
    requires s'.running in Alive(s) && s'.running in s.heap && s.heap[s'.running].Thread? && AllIn(s'.globals, Alive(s))
    ensures Inv(s')
  {
    assert Alive(s') == Alive(s);
    SamePlaces(s, s', {});
    if s.phase == Propagate {
      var busy := GrayOpens(s);
      assert Tri(s, busy) && OnlyAllWeak(s);
      assert GrayOpens(s') == busy && Marked(s') == Marked(s);
      RootsTri(s, s', busy);
    }
  }

  lemma RootsTri(s: State, s': State, busy: set<Ref>)
    requires Tri(s, busy) && s' == s.(globals := s'.globals, running := s'.running)
    ensures Tri(s', busy)
  {
    hide BlackOk, GrayLists, WeakOk, Within;
    assert Marked(s') == Marked(s);
    assert NoDangling(s') by { DanglingSame(s, s'); }
    BlacksStay(s, s', busy, busy);
    OpensStay(s, s', busy, busy);
    WeakStays(s, s');
    GrayListsSame(s, s');
    assert forall x :: Waiting(s', busy, x) == Waiting(s, busy, x);
  }

  // ----- objects that come to life -----

  /** The heap with a new object, or with a dead one that is used again. */
  lemma GrowWithin(h: map<Ref, Object>, h': map<Ref, Object>, x: Ref, p: set<Ref>)
    requires x in h && x in h' && h'[x] == h[x] && Within(h, x, p)
    requires h[x].OpenUpval? ==>
        h[x].thread in h && h[x].thread in h' && h'[h[x].thread].Thread? && h[h[x].thread].Thread?
                                 && h'[h[x].thread].stack == h[h[x].thread].stack
    ensures Within(h', x, p)
  {
  }

  lemma ThreadWithin(h: map<Ref, Object>, h': map<Ref, Object>, x: Ref, p: set<Ref>)
    requires x in h && x in h' && h[x].Thread? && h'[x].Thread? && h'[x].stack == h[x].stack && Within(h, x, p)
    ensures Within(h', x, p)
  {
  }

  lemma ResurrectOk(s: State, r: Ref)
    requires Inv(s) && r in s.heap
    requires Within(s.heap, r, Alive(s)) && !s.heap[r].Thread? 
    ensures Inv(Resurrect(s, r)) && r in Alive(Resurrect(s, r)) && Alive(s) <= Alive(Resurrect(s, r))
    ensures Resurrect(s, r).heap == s.heap
  {
    if Dead(s, r) {
      var s' := Whiten(s, r);
      NoneDead(s, r);
      assert Alive(s') == Alive(s) + {r};
      assert Wf(s, {}) && Live(s) && Swept(s, {});
      assert Swept(s', {});
      hide Inv, Live, Swept, Within;
      WhiteWf(s, r);
      WhiteLives(s, r);
      ResurrectPhase(s, s');
    } else {
      NotDeadAlive(s, r);
    }
  }

  lemma NotDeadAlive(s: State, r: Ref)
    requires Inv(s) && r in s.heap && !Dead(s, r)
    ensures r in Alive(s)
  {
    assert Wf(s, {});
  }

  lemma ResurrectPhase(s: State, s': State)
    requires Inv(s) && IsSweeping(s.phase) && Wf(s', {}) && Live(s') && Swept(s', {}) && s'.phase == s.phase
    requires s'.strAfter == s.strAfter
    ensures Inv(s')
  {
  }

  lemma WhiteWf(s: State, r: Ref)
    requires Wf(s, {}) && r in s.heap
    ensures Wf(Whiten(s, r), {})
  {
    hide OpenListsOk, Hooked, HeadOk, StringCounts, ObjectCounts;
    assert NeverBlack(Whiten(s, r).heap, Whiten(s, r).color);
    SamePlaces(s, Whiten(s, r), {});
  }

  lemma WhiteLives(s: State, r: Ref)
    requires Live(s) && r in s.heap && Within(s.heap, r, Alive(s)) && Alive(Whiten(s, r)) == Alive(s) + {r}
    ensures Live(Whiten(s, r))
  {
    var s' := Whiten(s, r);
    hide Within;
    forall x | x in Alive(s')
      ensures x in s'.heap && Within(s'.heap, x, Alive(s'))
    {
      WithinMono(s.heap, x, Alive(s), Alive(s'));
    }
    RootsMono(s, s');
  }

  lemma RootsMono(s: State, s': State)
    requires RootsAlive(s) && Alive(s) <= Alive(s') && s'.main == s.main && s'.running == s.running
    requires s'.globals == s.globals
    ensures RootsAlive(s')
  {
  }

  /** Only while sweeping there are dead objects. */
  lemma NoneDead(s: State, r: Ref)
    requires Inv(s) && Dead(s, r) && r in s.heap
    ensures IsSweeping(s.phase)
  {
    if s.phase == Propagate { NoDead(s, GrayOpens(s)); }
    assert s.phase == Propagate ==> r in Alive(s);
  }

  ghost predicate Fresh(s: State, r: Ref, o: Object) {
    && r !in s.heap
    && Within(s.heap[r := o], r, Alive(s)) && !o.OpenUpval? && (o.Thread? ==> o.open == [])
  }

  lemma InvFacts(s: State)
    requires Inv(s)
    ensures Wf(s, {}) && Live(s)
  {
    hide Wf, Live;
  }

  lemma FreshFacts(s: State, r: Ref, o: Object)
    requires Fresh(s, r, o)
    ensures r !in s.heap && !o.OpenUpval? && (o.Thread? ==> o.open == [])
  {
    hide Within, Alive;
  }

  lemma AllocateOk(s: State, r: Ref, o: Object, late: bool)
    requires Inv(s) && Fresh(s, r, o)
    ensures Inv(Allocate(s, r, o, late)) && Alive(Allocate(s, r, o, late)) == Alive(s) + {r}
    ensures Allocate(s, r, o, late).heap == s.heap[r := o]
  {
    InvFacts(s);
    FreshFacts(s, r, o);
    assert Allocate(s, r, o, late).heap == s.heap[r := o];
    hide Inv, Wf, Live, Alive, Fresh, Within, Allocate;
    AllocateAlive(s, r, o, late);
    AllocateWf(s, r, o, late);
    AllocateLive(s, r, o, late);
    AllocatePhase(s, r, o, late);
  }

  lemma AllocatePhase(s: State, r: Ref, o: Object, late: bool)
    requires Inv(s) && Fresh(s, r, o)
    requires Alive(Allocate(s, r, o, late)) == Alive(s) + {r}
    requires Live(Allocate(s, r, o, late)) && Wf(Allocate(s, r, o, late), {})
    ensures Inv(Allocate(s, r, o, late))
  {
    var s' := Allocate(s, r, o, late);
    if s.phase == Propagate {
      hide Wf, Live, Alive, Tri, Within;
      AllocateMarking(s, r, o, late);
    } else if s.phase == Pause {
      hide Wf, Live, Alive, Within;
      assert AllWhite(s');
    } else {
      hide Wf, Live, Alive, Within;
      AllocateSwept(s, r, o, late);
    }
  }

  lemma AllocateAlive(s: State, r: Ref, o: Object, late: bool)
    requires Wf(s, {}) && r !in s.heap
    ensures Alive(Allocate(s, r, o, late)) == Alive(s) + {r}
  {
  }

  lemma AllocateSwept(s: State, r: Ref, o: Object, late: bool)
    requires Swept(s, {}) && r !in s.heap && !o.OpenUpval?
    ensures Swept(Allocate(s, r, o, late), {})
  {
    var s' := Allocate(s, r, o, late);
    forall x | x in s'.heap && x in s'.color
      ensures s'.color[x] == White(s'.current) || ToSweep(s', x, {})
    {
      if x != r { assert x in s.heap && x in s.color && (s.color[x] == White(s.current) || ToSweep(s, x, {})); }
    }
  }

  lemma AllocateWf(s: State, r: Ref, o: Object, late: bool)
    requires Wf(s, {}) && r !in s.heap && !o.OpenUpval? && (o.Thread? ==> o.open == [])
    ensures Wf(Allocate(s, r, o, late), {})
  {
    var s' := Allocate(s, r, o, late);
    hide UpvalsOk, PlacesOk;
    AllocateUpvals(s, r, o, s');
    AllocatePlaces(s, r, o, late);
  }

  lemma AllocateUpvals(s: State, r: Ref, o: Object, s': State)
    requires s.color.Keys == s.heap.Keys && UpvalsOk(s) && r !in s.heap && !o.OpenUpval? && (o.Thread? ==> o.open == [])
    requires s'.heap == s.heap[r := o] && s'.color == s.color[r := White(s.current)] && s'.uvhead == s.uvhead
    ensures UpvalsOk(s')
  {
    forall t | t in s'.heap && s'.heap[t].Thread?
      ensures OpenListOk(s'.heap, t)
    {
      if t != r { assert OpenListOk(s.heap, t); }
    }
  }

  lemma AllocateCounts(s: State, r: Ref, o: Object, late: bool)
    ensures ObjectCounts(Allocate(s, r, o, late)) == ObjectCounts(s) +
        (if o == Str(true) then multiset{} else multiset{r})
    ensures StringCounts(Allocate(s, r, o, late)) == StringCounts(s) +
        (if o == Str(true) then multiset{r} else multiset{})
  {
  }

  lemma AllocatePlaces(s: State, r: Ref, o: Object, late: bool)
    requires PlacesOk(s, {}) && r !in s.heap && !o.OpenUpval? && s.main in s.heap
    ensures PlacesOk(Allocate(s, r, o, late), {})
  {
    hide ObjectCounts, StringCounts;
    var s' := Allocate(s, r, o, late);
    AllocateCounts(s, r, o, late);
    forall x
      ensures StringCounts(s')[x] == if InStringTable(s'.heap, x) then 1 else 0
      ensures ObjectCounts(s')[x] == if InObjectList(s', x) then 1 else 0
    {
      assert x != r ==>
          InObjectList(s', x) == InObjectList(s, x) && InStringTable(s'.heap, x) == InStringTable(s.heap, x);
      assert StringCounts(s)[x] == if InStringTable(s.heap, x) then 1 else 0;
      assert ObjectCounts(s)[x] == if InObjectList(s, x) then 1 else 0;
    }
  }

  lemma AllocateLive(s: State, r: Ref, o: Object, late: bool)
    requires Wf(s, {}) && Live(s) && Fresh(s, r, o) && Alive(Allocate(s, r, o, late)) == Alive(s) + {r}
    ensures Live(Allocate(s, r, o, late))
  {
    var s' := Allocate(s, r, o, late);
    assert Hooked(s.heap);
    assert s'.heap == s.heap[r := o] && s'.main == s.main && s'.running == s.running && s'.globals == s.globals;
    hide Within, Hooked, Wf, Allocate, Alive, AliveClosed, RootsAlive;
    AllocateClosed(s, s', r, o);
    MoreRoots(s, s');
  }

  lemma AllocateClosed(s: State, s': State, r: Ref, o: Object)
    requires AliveClosed(s) && Hooked(s.heap) && Fresh(s, r, o)
    requires s'.heap == s.heap[r := o] && Alive(s') == Alive(s) + {r}
    ensures AliveClosed(s')
  {
    hide Within, Hooked, Alive;
    forall x | x in Alive(s')
      ensures x in s'.heap && Within(s'.heap, x, Alive(s'))
    {
      AllocateWithin(s.heap, r, o, x, Alive(s));
    }
  }

  lemma MoreRoots(s: State, s': State)
    requires RootsAlive(s) && Alive(s) <= Alive(s')
    requires s'.main == s.main && s'.running == s.running && s'.globals == s.globals
    ensures RootsAlive(s')
  {
    hide Alive;
  }

  lemma AllocateWithin(h: map<Ref, Object>, r: Ref, o: Object, x: Ref, p: set<Ref>)
    requires Hooked(h) && r !in h && Within(h[r := o], r, p) && (x != r ==> x in h && Within(h, x, p))
    ensures Within(h[r := o], x, p + {r})
  {
    var h' := h[r := o];
    if x != r {
      assert h[x].OpenUpval? ==> h[x].thread in h && h[h[x].thread].Thread?;
      GrowWithin(h, h', x, p);
    }
    WithinMono(h', x, p, p + {r});
  }

  lemma AllocateMarking(s: State, r: Ref, o: Object, late: bool)
    requires Inv(s) && s.phase == Propagate && Fresh(s, r, o)
    requires Alive(Allocate(s, r, o, late)) == Alive(s) + {r} && Live(Allocate(s, r, o, late))
    ensures Marking(Allocate(s, r, o, late))
  {
    var s' := Allocate(s, r, o, late);
    var busy := GrayOpens(s);
    assert Tri(s, busy) && OnlyAllWeak(s) && s.main in Marked(s) && Hooked(s.heap);
    NoDead(s, busy);
    MarkedOpens(s, busy);
    AllocateGrown(s, r, o, late);
    hide Tri, Wf, Inv;
    GrowTri(s, s', r, busy);
  }

  lemma AllocateGrown(s: State, r: Ref, o: Object, late: bool)
    requires r !in s.heap && !o.OpenUpval?
    ensures var s' := Allocate(s, r, o, late);
            && GrownHeap(s.heap, s'.heap, r) && GrayOpens(s') == GrayOpens(s) && s'.gray == s.gray && SameLists(s, s')
            && s'.color == s.color[r := White(s.current)] && s'.current == s.current && s'.main == s.main
            && (OnlyAllWeak(s) ==> OnlyAllWeak(s'))
  {
  }


  /** An old object: a thread may have another list of open upvalues. */
  predicate Grown(o: Object, o': Object) {
    o' == o || (o.Thread? && o'.Thread? && o' == o.(open := o'.open))
  }

  ghost predicate GrownHeap(h: map<Ref, Object>, h': map<Ref, Object>, r: Ref) {
    h'.Keys == h.Keys + {r} && forall x :: x in h ==> x in h' && Grown(h[x], h'[x])
  }

  /** A new white object changes nothing for the others. */
  lemma GrowTri(s: State, s': State, r: Ref, busy: set<Ref>)
    requires Tri(s, busy) && Hooked(s.heap) && r !in s.heap && r in s'.heap
    requires GrownHeap(s.heap, s'.heap, r) && s'.color == s.color[r := White(s.current)] && s'.current == s.current
    requires s'.gray == s.gray && SameLists(s, s')
    requires AliveClosed(s') && Alive(s') == s'.heap.Keys
    requires forall x :: x in s.heap && s.heap[x].OpenUpval? && x in s.color && !s.color[x].White? ==> x in busy
    ensures Tri(s', busy) && Marked(s') == Marked(s)
  {
    assert Tri(s, busy) ==>
        s.color.Keys == s.heap.Keys && ListsOk(s, busy) && WeakOk(s) && BlacksOk(s, busy) && OpensOk(s, busy);
    assert ColorsOk(s') && busy <= Marked(s);
    hide Within, BlackOk, GrayLists, WeakOk, BlacksOk, ListsOk, OpensOk, GrownHeap, NoDangling;
    GrowMarked(s, s', r);
    GrayListsSame(s, s');
    GrowBlacks(s, s', r, busy);
    GrowLists(s, s', r, busy);
    GrowWeak(s, s', r);
    GrowOpens(s, s', r, busy);
    ClosedDangling(s');
  }

  lemma GrowMarked(s: State, s': State, r: Ref)
    requires r !in s.heap && GrownHeap(s.heap, s'.heap, r) && s'.color == s.color[r := White(s.current)]
    ensures Marked(s') == Marked(s)
  {
  }

  lemma ClosedDangling(s: State)
    requires AliveClosed(s) && Alive(s) == s.heap.Keys
    ensures NoDangling(s)
  {
  }

  lemma GrowOpens(s: State, s': State, r: Ref, busy: set<Ref>)
    requires OpensOk(s, busy) && r !in s.heap && GrownHeap(s.heap, s'.heap, r)
    requires s'.color == s.color[r := White(s.current)]
    requires forall x :: x in s.heap && s.heap[x].OpenUpval? && x in s.color && !s.color[x].White? ==> x in busy
    ensures OpensOk(s', busy)
  {
    forall x | x in s'.heap && x in s'.color && s'.heap[x].OpenUpval? && !s'.color[x].White?
      ensures s'.color[x] == Gray && x in busy
    {
      assert Grown(s.heap[x], s'.heap[x]);
    }
  }

  lemma GrowBlacks(s: State, s': State, r: Ref, busy: set<Ref>)
    requires BlacksOk(s, busy) && Hooked(s.heap) && r !in s.heap && r in s'.heap
    requires GrownHeap(s.heap, s'.heap, r) && s'.color == s.color[r := White(s.current)] && Marked(s') == Marked(s)
    ensures BlacksOk(s', busy)
  {
    forall x | x in s'.heap && x in s'.color && s'.color[x] == Black && x !in busy
      ensures BlackOk(s', x)
    {
      assert BlackOk(s, x) && Grown(s.heap[x], s'.heap[x]);
    }
  }

  lemma GrowLists(s: State, s': State, r: Ref, busy: set<Ref>)
    requires s.color.Keys == s.heap.Keys && ListsOk(s, busy) && r !in s.heap && r in s'.heap
    requires GrownHeap(s.heap, s'.heap, r) && s'.color == s.color[r := White(s.current)]
    requires GrayLists(s') == GrayLists(s)
    ensures ListsOk(s', busy)
  {
    hide GrayLists;
    forall x
      ensures Waiting(s', busy, x) == Waiting(s, busy, x)
      ensures Waiting(s', busy, x) ==> Listable(s'.heap[x])
    {
      if x in s.heap { assert Grown(s.heap[x], s'.heap[x]); }
    }
  }

  lemma GrowWeak(s: State, s': State, r: Ref)
    requires WeakOk(s) && r !in s.heap && SameLists(s, s') && Marked(s') == Marked(s)
    requires GrownHeap(s.heap, s'.heap, r)
    ensures WeakOk(s')
  {
  }
}

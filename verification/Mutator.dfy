/** What a program does to the heap between two steps of the collector, with the barriers. */
module Mutator {
  import opened CollectorState
  import opened Tricolor
  import opened Traversal
  import opened Propagation
  import opened Sweeping
  import opened CollectorInvariant
  import opened SweepingProof
  import opened CollectorSteps

  // ----- barriers (`lgc.c`, `lgc.h`) -----

  predicate IsBlack(s: State, r: Ref) {
    r in s.color && s.color[r] == Black
  }

  /** `luaC_barrier`: moves the collector forward, or, while sweeping, whitens the object. */
  function Barrier(s: State, o: Ref, v: Value): State {
    if IsWhite(s, v) && IsBlack(s, o) then
      if KeepsInvariant(s.phase) then Mark(s, v.ref) else Whiten(s, o)
    else s
  }

  /** `luaC_barrierback`: the object will be visited again. */
  function BarrierBack(s: State, o: Ref, v: Value): State {
    if IsWhite(s, v) && IsBlack(s, o) then LinkAgain(Regray(s, o), o) else s
  }

  /** `luaC_barrierproto`: forward for the first closure of the prototype, backward for others. */
  function BarrierProto(s: State, p: Ref, c: Value): State
    requires p in s.heap && s.heap[p].Proto?
  {
    if !IsBlack(s, p) then s
    else if s.heap[p].cache == Nil then Barrier(s, p, c)
    else LinkAgain(Regray(s, p), p)
  }

  // ----- stores -----

  function Put(s: State, x: Ref, o: Object): State {
    s.(heap := s.heap[x := o])
  }

  predicate SameKind(o: Object, o': Object) {
    match o
    case Str(_) => o' == o
    case Udata(_, _) => o'.Udata?
    case Closure(_) => o'.Closure?
    case Proto(_, _) => o'.Proto?
    case Table(_, _, _, _) => o'.Table?
    case Thread(stack, _, open) => o'.Thread? && o'.open == open && |o'.stack| >= |stack|
    case OpenUpval(_, _) => o' == o
    case Upval(_) => o'.Upval?
  }

  /** The object gets no references but those in `vs`. */
  ghost predicate Adds(s: State, x: Ref, o': Object, vs: seq<Value>)
    requires x in s.heap
  {
    && SameKind(s.heap[x], o') && !s.heap[x].OpenUpval?
    && (forall p: set<Ref> :: AllIn(vs, p) && Within(s.heap, x, p) ==> Within(s.heap[x := o'], x, p))
    && (o'.Table? ==> forall p: set<Ref> :: AllIn(vs, p) && KeysIn(s.heap[x].hash, p) ==> KeysIn(o'.hash, p))
  }

  /** A table that will not be visited again keeps its mode, and its metatable is marked. */
  ghost predicate KeepsWeak(s: State, x: Ref, o': Object) {
    x in s.allweak && s.phase == Propagate ==> o'.Table? && o'.mode.AllWeak? && In(o'.meta, Marked(s))
  }

  lemma PutWithin(h: map<Ref, Object>, x: Ref, o': Object, p: set<Ref>, r: Ref)
    requires x in h && SameKind(h[x], o') && Within(h[x := o'], x, p) && r in h && Within(h, r, p)
    ensures Within(h[x := o'], r, p)
  {
  }

  lemma PutStructure(s: State, x: Ref, o': Object)
    requires s.color.Keys == s.heap.Keys && x in s.heap && SameKind(s.heap[x], o')
    ensures SameStructure(s, Put(s, x, o'))
  {
  }

  lemma PutAlive(s: State, x: Ref, o': Object)
    requires x in s.heap
    ensures Alive(Put(s, x, o')) == Alive(s) && Marked(Put(s, x, o')) == Marked(s) && Whites(Put(s, x, o')) == Whites(s)
  {
  }

  lemma PutLive(s: State, x: Ref, o': Object, vs: seq<Value>)
    requires Wf(s, {}) && Live(s) && x in Alive(s) && Adds(s, x, o', vs) && AllIn(vs, Alive(s))
    ensures Wf(Put(s, x, o'), {}) && Live(Put(s, x, o'))
  {
    var s' := Put(s, x, o');
    PutAlive(s, x, o');
    PutStructure(s, x, o');
    assert Within(s.heap, x, Alive(s));
    assert Within(s'.heap, x, Alive(s));
    assert NeverBlack(s'.heap, s'.color) by { PutNeverBlack(s, x, o'); }
    hide UpvalsOk, PlacesOk, SameStructure, Within, NeverBlack;
    StructureWf(s, s', {});
    forall r | r in Alive(s')
      ensures r in s'.heap && Within(s'.heap, r, Alive(s'))
    {
      PutWithin(s.heap, x, o', Alive(s), r);
    }
  }

  lemma PutNeverBlack(s: State, x: Ref, o': Object)
    requires NeverBlack(s.heap, s.color) && x in s.heap && SameKind(s.heap[x], o')
    ensures NeverBlack(Put(s, x, o').heap, s.color)
  {
  }

  /** A store while marking: a black object needs attention now. */
  lemma PutTri(s: State, x: Ref, o': Object, vs: seq<Value>, busy: set<Ref>)
    requires Tri(s, busy) && x in s.heap && Adds(s, x, o', vs) && AllIn(vs, s.heap.Keys) && x !in busy
    requires x in s.allweak ==> o'.Table? && In(o'.meta, Marked(s))
    requires forall r :: r in s.heap && s.heap[r].OpenUpval? && r in s.color && !s.color[r].White? ==> r in busy
    ensures Tri(Put(s, x, o'), if IsBlack(s, x) then busy + {x} else busy)
  {
    hide Within, Adds, NoDangling, BlackOk, GrayLists;
    hide BlacksOk, ListsOk, WeakOk;
    var s' := Put(s, x, o');
    var busy' := if IsBlack(s, x) then busy + {x} else busy;
    PutDangling(s, x, o', vs);
    assert SameKind(s.heap[x], o') by { AddsKind(s, x, o', vs); }
    PutBlacks(s, x, o', busy);
    PutLists(s, x, o', busy);
    PutWeak(s, x, o');
    PutAlive(s, x, o');
    assert ColorsOk(s');
    assert OpensOk(s', busy') by { PutOpens(s, x, o', busy); }
  }

  lemma AddsKind(s: State, x: Ref, o': Object, vs: seq<Value>)
    requires x in s.heap && Adds(s, x, o', vs)
    ensures SameKind(s.heap[x], o') && !s.heap[x].OpenUpval?
  {
  }

  lemma PutOpens(s: State, x: Ref, o': Object, busy: set<Ref>)
    requires OpensOk(s, busy) && x in s.heap && SameKind(s.heap[x], o')
    requires forall r :: r in s.heap && s.heap[r].OpenUpval? && r in s.color && !s.color[r].White? ==> r in busy
    ensures OpensOk(Put(s, x, o'), if IsBlack(s, x) then busy + {x} else busy)
  {
    var s' := Put(s, x, o');
    forall r | r in s'.heap && s'.heap[r].OpenUpval? && r in s'.color && !s'.color[r].White?
      ensures s'.color[r] == Gray && r in busy
    {
      assert s.heap[r].OpenUpval?;
    }
  }

  lemma PutDangling(s: State, x: Ref, o': Object, vs: seq<Value>)
    requires NoDangling(s) && x in s.heap && Adds(s, x, o', vs) && AllIn(vs, s.heap.Keys)
    ensures NoDangling(Put(s, x, o'))
  {
    var s' := Put(s, x, o');
    assert Within(s.heap, x, s.heap.Keys);
    assert Within(s'.heap, x, s.heap.Keys);
    assert s'.heap.Keys == s.heap.Keys;
    hide Within;
    forall r | r in s'.heap ensures Within(s'.heap, r, s'.heap.Keys) {
      PutWithin(s.heap, x, o', s.heap.Keys, r);
    }
  }

  lemma PutBlacks(s: State, x: Ref, o': Object, busy: set<Ref>)
    requires BlacksOk(s, busy) && x in s.heap && SameKind(s.heap[x], o')
    ensures BlacksOk(Put(s, x, o'), if IsBlack(s, x) then busy + {x} else busy)
  {
    var s' := Put(s, x, o');
    PutAlive(s, x, o');
    forall r | r in s'.heap && r in s'.color && s'.color[r] == Black && r !in busy && r != x
      ensures BlackOk(s', r)
    {
      assert BlackOk(s, r);
    }
  }

  lemma PutLists(s: State, x: Ref, o': Object, busy: set<Ref>)
    requires s.color.Keys == s.heap.Keys && ListsOk(s, busy) && x in s.heap && SameKind(s.heap[x], o')
    ensures ListsOk(Put(s, x, o'), if IsBlack(s, x) then busy + {x} else busy)
  {
    hide GrayLists;
    var s' := Put(s, x, o');
    GrayListsSame(s, s');
    var busy' := if IsBlack(s, x) then busy + {x} else busy;
    forall r
      ensures Waiting(s', busy', r) == Waiting(s, busy, r)
      ensures Waiting(s', busy', r) ==> Listable(s'.heap[r])
    {
    }
  }

  lemma PutWeak(s: State, x: Ref, o': Object)
    requires WeakOk(s) && x in s.heap && SameKind(s.heap[x], o')
    requires x in s.allweak ==> o'.Table? && In(o'.meta, Marked(s))
    ensures WeakOk(Put(s, x, o'))
  {
    PutAlive(s, x, o');
    var s' := Put(s, x, o');
    forall i | 0 <= i < |s'.allweak|
      ensures In(s'.heap[s'.allweak[i]].meta, Marked(s'))
    {
      assert s.allweak[i] in s.allweak;
    }
  }

  // ----- stores with a barrier -----

  /** What the invariant says beside the phase. */
  lemma PutPhase(s: State, x: Ref, o': Object)
    requires x in s.heap && SameKind(s.heap[x], o')
    ensures AllWhite(s) ==> AllWhite(Put(s, x, o'))
    ensures Swept(s, {}) ==> Swept(Put(s, x, o'), {})
  {
    var s' := Put(s, x, o');
    forall r | Swept(s, {}) && r in s'.heap && r in s'.color
      ensures s'.color[r] == White(s'.current) || ToSweep(s', r, {})
    {
      assert s.color[r] == White(s.current) || ToSweep(s, r, {});
    }
  }

  /** The state after a store, before its barrier. */
  ghost predicate Stored(s: State, x: Ref, o': Object, vs: seq<Value>) {
    && Inv(s) && x in Alive(s) && x in s.heap && Adds(s, x, o', vs) && AllIn(vs, Alive(s)) && KeepsWeak(s, x, o')
  }

  lemma StoredTri(s: State, x: Ref, o': Object, vs: seq<Value>)
    requires Stored(s, x, o', vs) && s.phase == Propagate
    ensures var s1 := Put(s, x, o');
            && Tri(s1, if IsBlack(s, x) then GrayOpens(s) + {x} else GrayOpens(s)) && x !in GrayOpens(s)
            && Bounded(s1, s1.heap.Keys) && OnlyAllWeak(s1) && s1.main in Marked(s1) && Marked(s1) == Marked(s)
            && GrayOpens(s1) == GrayOpens(s)
  {
    var s1 := Put(s, x, o');
    var busy := GrayOpens(s);
    StoredFacts(s, x, o', vs);
    hide Stored, Tri, Adds, OnlyAllWeak, Bounded, GrayOpens;
    PutAlive(s, x, o');
    PutTri(s, x, o', vs, busy);
    TriBound(s1, if IsBlack(s, x) then busy + {x} else busy);
    PutOpensSame(s, x, o');
  }

  lemma PutOpensSame(s: State, x: Ref, o': Object)
    requires x in s.heap && SameKind(s.heap[x], o')
    ensures GrayOpens(Put(s, x, o')) == GrayOpens(s)
  {
  }

  lemma StoredFacts(s: State, x: Ref, o': Object, vs: seq<Value>)
    requires Stored(s, x, o', vs) && s.phase == Propagate
    ensures Tri(s, GrayOpens(s)) && x in s.heap && Adds(s, x, o', vs) && AllIn(vs, s.heap.Keys) && x !in GrayOpens(s)
    ensures x in s.allweak ==> o'.Table? && In(o'.meta, Marked(s))
    ensures forall r :: r in s.heap && s.heap[r].OpenUpval? && r in s.color && !s.color[r].White? ==> r in GrayOpens(s)
    ensures SameKind(s.heap[x], o') && s.main in Marked(s) && OnlyAllWeak(Put(s, x, o'))
  {
    NoDead(s, GrayOpens(s));
    AddsKind(s, x, o', vs);
    MarkedOpens(s, GrayOpens(s));
    PutOnlyAllWeak(s, x, o');
  }

  lemma PutOnlyAllWeak(s: State, x: Ref, o': Object)
    requires OnlyAllWeak(s) && x in s.heap && KeepsWeak(s, x, o') && s.phase == Propagate
    ensures OnlyAllWeak(Put(s, x, o'))
  {
  }

  lemma MarkedOpens(s: State, busy: set<Ref>)
    requires Tri(s, busy) && busy == GrayOpens(s)
    ensures forall r :: r in s.heap && s.heap[r].OpenUpval? && r in s.color && !s.color[r].White? ==> r in busy
  {
    assert OpensOk(s, busy);
  }

  lemma TriBound(s: State, busy: set<Ref>)
    requires Tri(s, busy)
    ensures Bounded(s, s.heap.Keys)
  {
    AllClosed(s);
  }

  /** Whatever the phase, all but the marking is in order after the store. */
  lemma StoredRest(s: State, x: Ref, o': Object, vs: seq<Value>)
    requires Stored(s, x, o', vs)
    ensures var s1 := Put(s, x, o');
            && Wf(s1, {}) && Live(s1) && Alive(s1) == Alive(s) && SameKind(s.heap[x], o')
            && (s.phase != Propagate ==> Inv(s1))
  {
    PutAlive(s, x, o');
    AddsKind(s, x, o', vs);
    hide Adds, Within, Marking, Swept, AllWhite, KeepsWeak;
    assert Wf(s, {}) && Live(s);
    PutLive(s, x, o', vs);
    PutPhase(s, x, o');
  }

  /** The black object with the stored references is in order once these are marked. */
  lemma StoredBlack(s: State, x: Ref, o': Object, vs: seq<Value>, s2: State)
    requires Stored(s, x, o', vs) && s.phase == Propagate && IsBlack(s, x)
    requires Marks(Put(s, x, o'), s2) && AllIn(vs, Marked(s2))
    ensures BlackOk(s2, x)
  {
    var s1 := Put(s, x, o');
    assert Marking(s) && BlacksOk(s, GrayOpens(s)) && s.heap[x].OpenUpval? == false;
    assert BlackOk(s, x);
    PutAlive(s, x, o');
    MarkedGrows(s1, s2);
    WithinMono(s.heap, x, Marked(s), Marked(s2));
    assert Within(s1.heap, x, Marked(s2));
  }

  /** A marking state with a black object that has become complete. */
  lemma MarkingAgain(s: State, x: Ref, opens: set<Ref>, s0: State)
    requires Tri(s, opens + {x}) && x !in opens && x in s.heap && x in s.color && s.color[x] == Black && BlackOk(s, x)
    requires opens == GrayOpens(s0) && forall r :: r in opens ==> r in s.heap && s.heap[r].OpenUpval?
    requires Bounded(s, s.heap.Keys) && OnlyAllWeak(s) && s.main in Marked(s)
    ensures Marking(s)
  {
    hide BlackOk, Bounded;
    DoneBlack(s, x, opens, s.heap.Keys);
    hide Tri;
    MoreBusy(s, opens);
  }

  lemma ForwardOk(s: State, x: Ref, o': Object, v: Value)
    requires Stored(s, x, o', [v])
    ensures Inv(Barrier(Put(s, x, o'), x, v))
  {
    var s1 := Put(s, x, o');
    StoredRest(s, x, o', [v]);
    if s.phase == Propagate {
      ForwardMarking(s, x, o', v);
    } else if IsWhite(s1, v) && IsBlack(s1, x) {
      WhitenBarrier(s1, x);
    }
  }

  /** While sweeping, the object itself turns white and needs no more barriers. */
  lemma WhitenBarrier(s: State, x: Ref)
    requires Inv(s) && s.phase != Propagate && x in s.heap && IsBlack(s, x)
    ensures !KeepsInvariant(s.phase) && Inv(Whiten(s, x))
  {
    assert s.phase == Pause ==> AllWhite(s);
    assert x in Alive(s);
    assert Swept(s, {}) && Wf(s, {}) && Live(s);
    hide Wf, Live, Swept, Shrinks;
    WhitenOk(s, x, {}, {});
    ShrinksLive(s, Whiten(s, x), {});
  }

  lemma ForwardMarking(s: State, x: Ref, o': Object, v: Value)
    requires Stored(s, x, o', [v]) && s.phase == Propagate
    requires Wf(Put(s, x, o'), {}) && Live(Put(s, x, o'))
    ensures Inv(Barrier(Put(s, x, o'), x, v))
  {
    var s1 := Put(s, x, o');
    var opens := GrayOpens(s);
    StoredTri(s, x, o', [v]);
    PutAlive(s, x, o');
    if IsBlack(s, x) {
      hide Stored, Wf, Live, Tri, Bounded, Barrier, GrayOpens, OnlyAllWeak;
      ForwardBlack(s, s1, x, o', v);
    } else {
      assert Barrier(s1, x, v) == s1;
    }
  }

  lemma ForwardBlack(s: State, s1: State, x: Ref, o': Object, v: Value)
    requires Stored(s, x, o', [v]) && s.phase == Propagate && s1 == Put(s, x, o') && IsBlack(s, x) && x !in GrayOpens(s)
    requires Wf(s1, {}) && Live(s1) && Tri(s1, GrayOpens(s) + {x}) && Bounded(s1, s1.heap.Keys) && OnlyAllWeak(s1)
    requires s1.main in Marked(s1)
    requires GrayOpens(s1) == GrayOpens(s)
    ensures Inv(Barrier(s1, x, v))
  {
    hide Stored, Live, Wf, Tri, Bounded, OnlyAllWeak, Barrier, MarkValue, Marking, Visits, Marks, BlackOk, GrayOpens;
    var opens := GrayOpens(s);
    var s2 := MarkValue(s1, v);
    StoredIn(s, s1, x, o', v);
    OpensKind(s1);
    MarkValueOk(s1, v, opens + {x}, s1.heap.Keys);
    MarkedHeap(s1, s2, x);
    assert AllIn([v], Marked(s2)) by { OneIn(v, Marked(s2)); }
    StoredBlack(s, x, o', [v], s2);
    MarkValueVisits(s1, v);
    OnlyAllWeakSame(s1, s2);
    MarkingAgain(s2, x, opens, s);
    MarkStepInv(s1, s2, opens + {x});
  }

  lemma OneIn(v: Value, p: set<Ref>)
    requires In(v, p)
    ensures AllIn([v], p)
  {
  }

  lemma OpensKind(s: State)
    ensures forall r :: r in GrayOpens(s) ==> r in s.heap && s.heap[r].OpenUpval?
  {
  }

  lemma MarkedHeap(s: State, s': State, x: Ref)
    requires Marks(s, s') && x in s.color && s.color[x] == Black
    ensures s'.heap == s.heap && Marked(s) <= Marked(s') && x in s'.color && s'.color[x] == Black
  {
  }

  lemma StoredIn(s: State, s1: State, x: Ref, o': Object, v: Value)
    requires Stored(s, x, o', [v]) && s.phase == Propagate && s1 == Put(s, x, o') && IsBlack(s, x)
    ensures In(v, s1.heap.Keys) && x in s1.color && s1.color[x] == Black && x in s1.heap
    ensures Barrier(s1, x, v) == MarkValue(s1, v)
  {
    assert [v][0] == v && In(v, Alive(s));
  }

  lemma OnlyAllWeakSame(s: State, s': State)
    requires OnlyAllWeak(s) && s'.heap == s.heap && s'.allweak == s.allweak
    ensures OnlyAllWeak(s')
  {
  }

  /** Marking by a barrier leaves the rest of the invariant alone. */
  lemma MarkStepInv(s1: State, s2: State, busy: set<Ref>)
    requires Wf(s1, {}) && Live(s1) && Visits(s1, s2) && Marking(s2) && s1.phase == Propagate
    ensures Inv(s2)
  {
    VisitsChanges(s1, s2);
    ChangesRoots(s1, s2);
    ChangesStructure(s1, s2);
    TriNeverBlack(s2, GrayOpens(s2));
    assert s1.main in s1.heap && s1.running in s1.heap && AllIn(s1.globals, s1.heap.Keys);
    hide Tri, Live, Visits, Changes, UpvalsOk, PlacesOk, SameStructure, NeverBlack;
    StructureWf(s1, s2, {});
    TriLive(s2, GrayOpens(s2));
  }

  /** Of the references a store adds, all but `v` are marked already if the object is black. */
  predicate OthersMarked(s: State, x: Ref, vs: seq<Value>, v: Value) {
    v in vs && (IsBlack(s, x) ==> forall u :: u in vs ==> u == v || In(u, Marked(s)))
  }

  lemma BackOk(s: State, x: Ref, o': Object, vs: seq<Value>, v: Value)
    requires Stored(s, x, o', vs) && o'.Table? && (s.phase == Propagate ==> OthersMarked(s, x, vs, v))
    ensures Inv(BarrierBack(Put(s, x, o'), x, v))
  {
    var s1 := Put(s, x, o');
    StoredRest(s, x, o', vs);
    if s.phase == Propagate {
      StoredTri(s, x, o', vs);
      if IsBlack(s, x) {
        hide Wf, Live, Tri, Bounded, BarrierBack, GrayOpens, OnlyAllWeak, Stored;
        BackMarking(s, s1, x, o', vs, v);
      }
    } else if IsWhite(s1, v) && IsBlack(s1, x) {
      BackSweeping(s1, x);
    }
  }

  lemma BackMarking(s: State, s1: State, x: Ref, o': Object, vs: seq<Value>, v: Value)
    requires Stored(s, x, o', vs) && s.phase == Propagate && s1 == Put(s, x, o') && IsBlack(s, x) && x !in GrayOpens(s)
    requires OthersMarked(s, x, vs, v)
    requires Wf(s1, {}) && Live(s1) && Tri(s1, GrayOpens(s) + {x}) && Bounded(s1, s1.heap.Keys) && OnlyAllWeak(s1)
    requires s1.main in Marked(s1)
    requires GrayOpens(s1) == GrayOpens(s) && o'.Table?
    ensures Inv(BarrierBack(s1, x, v))
  {
    OpensKind(s1);
    if IsWhite(s1, v) {
      assert BarrierBack(s1, x, v) == LinkAgain(Regray(s1, x), x);
      hide Stored, GrayOpens, Wf, Live, Tri, Bounded;
      GrayAgain(s1, x, GrayOpens(s));
    } else {
      BlackHere(s, s1, x, o', vs);
      PutAlive(s, x, o');
      hide Stored, Wf, Live, Tri, Bounded, GrayOpens, BlackOk;
      BackComplete(s, s1, x, o', vs, v);
    }
  }

  lemma BlackHere(s: State, s1: State, x: Ref, o': Object, vs: seq<Value>)
    requires Stored(s, x, o', vs) && s.phase == Propagate && s1 == Put(s, x, o') && IsBlack(s, x)
    ensures AllIn(vs, s1.heap.Keys) && x in s1.color && s1.color[x] == Black && x in s1.heap
  {
  }

  lemma BackComplete(s: State, s1: State, x: Ref, o': Object, vs: seq<Value>, v: Value)
    requires Stored(s, x, o', vs) && s.phase == Propagate && s1 == Put(s, x, o') && IsBlack(s, x) && x !in GrayOpens(s)
    requires OthersMarked(s, x, vs, v) && Marked(s1) == Marked(s)
    requires Wf(s1, {}) && Live(s1) && Tri(s1, GrayOpens(s) + {x}) && Bounded(s1, s1.heap.Keys) && OnlyAllWeak(s1)
    requires s1.main in Marked(s1)
    requires forall r :: r in GrayOpens(s) ==> r in s1.heap && s1.heap[r].OpenUpval?
    requires AllIn(vs, s1.heap.Keys) && !IsWhite(s1, v) && x in s1.heap && x in s1.color && s1.color[x] == Black
    ensures Inv(s1)
  {
    hide Stored, Wf, Live, Tri, Bounded, GrayOpens, BlackOk, OnlyAllWeak, Marked;
    InAll(vs, v, s1.heap.Keys) by { assert v in vs; }
    NotWhiteMarked(s1, v, GrayOpens(s) + {x});
    MarksRefl(s1);
    assert AllIn(vs, Marked(s1)) by { EachMarked(s, vs, v, x, Marked(s1)); }
    StoredBlack(s, x, o', vs, s1);
    MarkingAgain(s1, x, GrayOpens(s), s);
  }

  lemma InAll(vs: seq<Value>, v: Value, p: set<Ref>)
    requires AllIn(vs, p) && v in vs
    ensures In(v, p)
  {
  }

  lemma EachMarked(s: State, vs: seq<Value>, v: Value, x: Ref, p: set<Ref>)
    requires OthersMarked(s, x, vs, v) && IsBlack(s, x) && p == Marked(s) && In(v, p)
    ensures AllIn(vs, p)
  {
    forall j | 0 <= j < |vs|
      ensures In(vs[j], p)
    {
      assert vs[j] in vs;
    }
  }

  lemma NotWhiteMarked(s: State, v: Value, busy: set<Ref>)
    requires Tri(s, busy) && In(v, s.heap.Keys) && !IsWhite(s, v)
    ensures In(v, Marked(s))
  {
  }

  /** The black object becomes gray and waits in `grayagain`. */
  lemma GrayAgain(s1: State, x: Ref, opens: set<Ref>)
    requires Wf(s1, {}) && Live(s1) && Tri(s1, opens + {x}) && x !in opens && Bounded(s1, s1.heap.Keys)
    requires OnlyAllWeak(s1)
    requires s1.main in Marked(s1) && s1.phase == Propagate && x in s1.heap && (s1.heap[x].Table? || s1.heap[x].Proto?)
    requires forall r :: r in opens ==> r in s1.heap && s1.heap[r].OpenUpval?
    ensures Inv(LinkAgain(Regray(s1, x), x))
  {
    hide Wf, Live, Tri, Bounded, GrayLists, WeakOk, OnlyAllWeak;
    var s2 := Regray(s1, x);
    var s' := LinkAgain(s2, x);
    BusyAlive(s1, x, opens);
    GrayAgainRest(s1, x);
    RegrayOk(s1, x, opens + {x}, s1.heap.Keys);
    RegrayColor(s1, x);
    GrayListsPush(s2, x);
    WeakSame(s2, s', opens + {x});
    LinkOk(s2, s', x, opens, s1.heap.Keys);
    MoreBusy(s', opens);
    OnlyAllWeakSame(s1, s');
    assert Marked(s') == Marked(s2);
  }

  lemma BusyAlive(s: State, x: Ref, opens: set<Ref>)
    requires Tri(s, opens + {x})
    ensures x in Alive(s) && x in s.color
  {
    NoDead(s, opens + {x});
    assert x in Marked(s);
  }

  lemma WeakSame(s: State, s': State, busy: set<Ref>)
    requires Tri(s, busy) && s'.heap == s.heap && s'.color == s.color
    requires s'.weak == s.weak && s'.allweak == s.allweak && s'.ephemeron == s.ephemeron
    ensures WeakOk(s')
  {
    assert WeakOk(s) && Marked(s') == Marked(s);
  }

  lemma GrayAgainRest(s: State, x: Ref)
    requires Wf(s, {}) && Live(s) && x in Alive(s) && x in s.heap && !s.heap[x].OpenUpval?
    ensures var s' := LinkAgain(Regray(s, x), x);
            Wf(s', {}) && Live(s') && Alive(s') == Alive(s)
  {
    hide PlacesOk, OpenListsOk, Hooked, HeadOk, AliveClosed, RootsAlive, NeverBlack, Alive;
    GrayAgainColors(s, x);
    var s' := LinkAgain(Regray(s, x), x);
    SamePlaces(s, s', {});
    AliveSame(s, s');
  }

  lemma GrayAgainColors(s: State, x: Ref)
    requires NeverBlack(s.heap, s.color) && x in Alive(s) && x in s.heap && !s.heap[x].OpenUpval?
    ensures var s' := LinkAgain(Regray(s, x), x);
      && s' == s.(color := s.color[x := Gray], grayagain := [x] + s.grayagain)
      && Alive(s') == Alive(s) && NeverBlack(s'.heap, s'.color)
  {
  }

  lemma AliveSame(s: State, s': State)
    requires AliveClosed(s) && RootsAlive(s) && Alive(s') == Alive(s) && s'.heap == s.heap
    requires s'.main == s.main && s'.running == s.running && s'.globals == s.globals
    ensures AliveClosed(s') && RootsAlive(s')
  {
    hide Within, Alive;
  }

  /** The gray lists do not matter while sweeping. */
  lemma BackSweeping(s: State, x: Ref)
    requires Inv(s) && s.phase != Propagate && x in s.heap && IsBlack(s, x) && !s.heap[x].OpenUpval?
    ensures Inv(LinkAgain(Regray(s, x), x))
  {
    hide Wf, Live;
    var s' := LinkAgain(Regray(s, x), x);
    assert s.phase == Pause ==> AllWhite(s);
    assert x in Alive(s);
    assert Wf(s, {}) && Live(s) && Swept(s, {});
    GrayAgainRest(s, x);
    forall r | r in s'.heap && r in s'.color
      ensures s'.color[r] == White(s'.current) || ToSweep(s', r, {})
    {
      assert s.color[r] == White(s.current) || ToSweep(s, r, {});
    }
  }

  /** Stacks are never black, so stack writes need no barrier; nor does a store that adds no reference. */
  lemma PlainOk(s: State, x: Ref, o': Object, vs: seq<Value>)
    requires Stored(s, x, o', vs) && (s.heap[x].Thread? || vs == [])
    ensures Inv(Put(s, x, o'))
  {
    var s1 := Put(s, x, o');
    StoredRest(s, x, o', vs);
    if s.phase == Propagate {
      StoredTri(s, x, o', vs);
      if IsBlack(s, x) {
        assert !s.heap[x].Thread? by { assert BlacksOk(s, GrayOpens(s)) && BlackOk(s, x); }
        MarksRefl(s1);
        StoredBlack(s, x, o', vs, s1);
        assert forall r :: r in GrayOpens(s) ==> r in s1.heap && s1.heap[r].OpenUpval? by {
          assert GrayOpens(s1) == GrayOpens(s);
        }
        hide Stored, Wf, Live, Tri, Bounded;
        MarkingAgain(s1, x, GrayOpens(s), s);
      }
    }
  }
}

/** Every single step of the collector keeps the invariant. */
module CollectorSteps {
  import opened CollectorState
  import opened Tricolor
  import opened Traversal
  import opened Visiting
  import opened Propagation
  import opened AtomicPhase
  import opened Convergence
  import opened Clearing
  import opened Sweeping
  import opened CollectorInvariant
  import opened SweepingProof

  // ----- structure -----

  /** Kinds, lists of open upvalues and stack sizes are as before. */
  ghost predicate SameStructure(s: State, s': State) {
    && s'.heap.Keys == s.heap.Keys && s'.color.Keys == s.color.Keys
    && (forall r :: r in s.heap ==> SameShape(s.heap[r], s'.heap[r]))
    && s'.main == s.main && s'.running == s.running && s'.uvhead == s.uvhead
    && s'.strBefore == s.strBefore && s'.strAfter == s.strAfter && s'.before == s.before && s'.after == s.after
  }

  predicate SameShape(o: Object, o': Object) {
    match o
    case Thread(stack, _, open) => o'.Thread? && o'.open == open && |o'.stack| >= |stack|
    case OpenUpval(_, _) => o' == o
    case Str(_) => o' == o
    case _ => !o'.Thread? && !o'.OpenUpval? && !o'.Str?
  }

  lemma StructureWf(s: State, s': State, loose: set<Ref>)
    requires Wf(s, loose) && SameStructure(s, s') && NeverBlack(s'.heap, s'.color)
    ensures Wf(s', loose)
  {
    hide StringCounts, ObjectCounts;
    assert forall r :: r in s.heap ==> SameShape(s.heap[r], s'.heap[r]);
    StructureLists(s, s');
    StructureHead(s, s');
    SameCounts(s, s');
    assert forall x :: InStringTable(s'.heap, x) == InStringTable(s.heap, x);
    assert forall x :: InObjectList(s', x) == InObjectList(s, x);
    PlacesSame(s, s', loose);
  }

  lemma StructureLists(s: State, s': State)
    requires SameStructure(s, s') && OpenListsOk(s.heap) && Hooked(s.heap)
    ensures OpenListsOk(s'.heap) && Hooked(s'.heap)
  {
    forall t | t in s'.heap && s'.heap[t].Thread?
      ensures OpenListOk(s'.heap, t)
    {
      assert SameShape(s.heap[t], s'.heap[t]);
      assert OpenListOk(s.heap, t);
      forall x | x in s'.heap[t].open
        ensures x in s'.heap && s'.heap[x] == s.heap[x] && s.heap[x].OpenUpval?
      {
        assert SameShape(s.heap[x], s'.heap[x]);
      }
    }
    forall x | x in s'.heap && s'.heap[x].OpenUpval?
      ensures s'.heap[x].thread in s'.heap && s'.heap[s'.heap[x].thread].Thread? && x in s'.heap[s'.heap[x].thread].open
    {
      assert SameShape(s.heap[x], s'.heap[x]);
      assert SameShape(s.heap[s.heap[x].thread], s'.heap[s.heap[x].thread]);
    }
  }

  lemma StructureHead(s: State, s': State)
    requires SameStructure(s, s') && HeadOk(s.heap, s.uvhead)
    ensures HeadOk(s'.heap, s'.uvhead)
  {
    assert forall r :: r in s.heap ==> SameShape(s.heap[r], s'.heap[r]);
  }

  lemma ChangesStructure(s: State, s': State)
    requires Changes(s, s')
    ensures SameStructure(s, s')
  {
    forall r | r in s.heap
      ensures SameShape(s.heap[r], s'.heap[r])
    {
      assert Quiet(s.heap[r], s'.heap[r]);
    }
  }

  lemma ClearsStructure(s: State, s': State)
    requires Clears(s, s')
    ensures SameStructure(s, s')
  {
    forall r | r in s.heap
      ensures SameShape(s.heap[r], s'.heap[r])
    {
      assert ClearedTable(s.heap, s.heap[r], s'.heap[r], Marked(s'));
    }
  }

  lemma StructureTrans(a: State, b: State, c: State)
    requires SameStructure(a, b) && SameStructure(b, c)
    ensures SameStructure(a, c)
  {
    forall r | r in a.heap
      ensures SameShape(a.heap[r], c.heap[r])
    {
      assert SameShape(a.heap[r], b.heap[r]) && SameShape(b.heap[r], c.heap[r]);
    }
  }

  // ----- marking -----

  lemma TriNeverBlack(s: State, busy: set<Ref>)
    requires Tri(s, busy)
    ensures NeverBlack(s.heap, s.color)
  {
    assert OpensOk(s, busy);
  }

  /** More open upvalues may be out of date. */
  lemma MoreBusy(s: State, busy: set<Ref>)
    requires Tri(s, busy) && forall x :: x in busy ==> x in s.heap && s.heap[x].OpenUpval?
    ensures Tri(s, GrayOpens(s))
  {
    hide BlackOk, GrayLists, Within, WeakOk;
    forall x | x in busy
      ensures x in GrayOpens(s)
    {
      assert x in Marked(s) && OpensOk(s, busy);
    }
    assert forall x :: Waiting(s, GrayOpens(s), x) == Waiting(s, busy, x);
  }

  /** While nothing is dead, every reference leads to an object. */
  lemma TriLive(s: State, busy: set<Ref>)
    requires Tri(s, busy) && AllIn(s.globals, s.heap.Keys) && s.main in s.heap && s.running in s.heap
    ensures Live(s)
  {
    assert Alive(s) == s.heap.Keys;
  }

  lemma NoDead(s: State, busy: set<Ref>)
    requires Tri(s, busy)
    ensures Alive(s) == s.heap.Keys
  {
  }

  lemma WhiteLive(s: State)
    requires Wf(s, {}) && Live(s) && AllWhite(s)
    ensures Alive(s) == s.heap.Keys && NoDangling(s) && Marked(s) == {}
  {
    assert Alive(s) == s.heap.Keys;
  }

  ghost predicate RootsIn(s: State, c: set<Ref>) {
    s.main in c && s.running in c && AllIn(s.globals, c)
  }

  lemma RestartFacts(s: State)
    requires Wf(s, {}) && Live(s) && AllWhite(s)
    ensures s.color.Keys == s.heap.Keys && NoDangling(s) && Marked(s) == {} && AllIn(s.globals, s.heap.Keys)
    ensures forall r :: r in s.color ==> s.color[r] == White(s.current)
  {
    WhiteLive(s);
    hide UpvalsOk, PlacesOk, Within, AliveClosed;
  }

  lemma RestartTri(s: State, c: set<Ref>)
    requires Wf(s, {}) && Live(s) && AllWhite(s) && Closed(s.heap, c)
    ensures var s0 := s.(gray := [], grayagain := [], weak := [], allweak := [], ephemeron := []);
            Tri(s0, {}) && Bounded(s0, c) && AllIn(s.globals, s.heap.Keys)
  {
    hide Within, BlackOk, Closed, Wf, Live, AllWhite;
    var s0 := s.(gray := [], grayagain := [], weak := [], allweak := [], ephemeron := []);
    RestartFacts(s);
    assert Marked(s0) == {};
    assert NoDangling(s0);
    assert ColorsOk(s0);
    assert forall r :: GrayLists(s0)[r] == 0;
    assert ListsOk(s0, {});
  }

  lemma RestartOk(s: State, c: set<Ref>)
    requires Inv(s) && s.phase == Pause && Closed(s.heap, c) && RootsIn(s, c)
    ensures Inv(Restart(s)) && Bounded(Restart(s), c) && Changes(s.(phase := Propagate), Restart(s))
  {
    var s0 := s.(gray := [], grayagain := [], weak := [], allweak := [], ephemeron := []);
    var s2 := MarkAll(MarkValue(s0, Obj(s.main)), s.globals);
    hide Tri, Bounded, Live, Visits, Changes, MarkValue, MarkAll, UpvalsOk, PlacesOk, Swept;
    RestartMarks(s, c);
    assert Wf(s, {}) && s.main in s.heap && s.running in s.heap;
    hide Wf;
    var s' := s2.(phase := Propagate);
    PhaseTri(s2, s', {}, c);
    MoreBusy(s', {});
    RestartChanges(s, s0, s2, s');
    TriNeverBlack(s', {});
    RestartWf(s, s');
    TriLive(s', {});
    RestartWeak(s0, s2, s');
  }

  lemma RestartMarks(s: State, c: set<Ref>)
    requires Inv(s) && s.phase == Pause && Closed(s.heap, c) && RootsIn(s, c)
    ensures var s0 := s.(gray := [], grayagain := [], weak := [], allweak := [], ephemeron := []);
            var s2 := MarkAll(MarkValue(s0, Obj(s.main)), s.globals);
            && Tri(s2, {}) && Bounded(s2, c) && Visits(s0, s2) && SameLists(s0, s2)
            && s.main in Marked(s2) && AllIn(s.globals, s.heap.Keys)
  {
    var s0 := s.(gray := [], grayagain := [], weak := [], allweak := [], ephemeron := []);
    RestartTri(s, c);
    assert Wf(s, {});
    var s1 := MarkValue(s0, Obj(s.main));
    var s2 := MarkAll(s1, s.globals);
    hide Tri, Bounded, Inv, Visits, MarkValue, MarkAll, UpvalsOk, PlacesOk;
    MarkValueOk(s0, Obj(s.main), {}, c);
    MarkValueVisits(s0, Obj(s.main));
    MarksHeap(s0, s1);
    MarkAllOk(s1, s.globals, {}, c);
    MarkAllVisits(s1, s.globals);
    VisitsMarked(s1, s2);
    VisitsTrans(s0, s1, s2);
  }

  lemma RestartChanges(s: State, s0: State, s2: State, s': State)
    requires s0 == s.(gray := [], grayagain := [], weak := [], allweak := [], ephemeron := [])
    requires Visits(s0, s2) && s' == s2.(phase := Propagate)
    ensures Changes(s.(phase := Propagate), s') && s'.heap.Keys == s.heap.Keys
    ensures s'.main == s.main && s'.running == s.running && s'.globals == s.globals && s'.current == s.current
  {
    VisitsChanges(s0, s2);
    ListsChange(s.(phase := Propagate), s0.(phase := Propagate));
    assert Changes(s0.(phase := Propagate), s');
    hide Changes, Visits;
    ChangesTrans(s.(phase := Propagate), s0.(phase := Propagate), s');
    VisitsMarked(s0, s2);
    ChangesRoots(s0, s2) by { VisitsChanges(s0, s2); }
  }

  lemma RestartWf(s: State, s': State)
    requires Wf(s, {}) && Changes(s.(phase := Propagate), s') && NeverBlack(s'.heap, s'.color)
    ensures Wf(s', {})
  {
    hide UpvalsOk, PlacesOk, SameStructure, Wf, NeverBlack, Changes;
    PhaseWf(s, s.(phase := Propagate));
    ChangesStructure(s.(phase := Propagate), s');
    StructureWf(s.(phase := Propagate), s', {});
  }

  lemma RestartWeak(s0: State, s2: State, s': State)
    requires s0.allweak == [] && SameLists(s0, s2) && s' == s2.(phase := Propagate)
    ensures OnlyAllWeak(s') && Marked(s') == Marked(s2)
  {
    assert Marked(s') == Marked(s2);
  }

  lemma PhaseWf(s: State, s': State)
    requires Wf(s, {}) && s' == s.(phase := s'.phase)
    ensures Wf(s', {})
  {
    SameCounts(s, s');
    hide StringCounts, ObjectCounts;
    assert forall x :: InObjectList(s', x) == InObjectList(s, x);
    PlacesSame(s, s', {});
  }

  lemma PhaseTri(s: State, s': State, busy: set<Ref>, c: set<Ref>)
    requires Tri(s, busy) && Bounded(s, c) && s' == s.(phase := s'.phase)
    ensures Tri(s', busy) && Bounded(s', c) && Marked(s') == Marked(s)
  {
    hide BlackOk, GrayLists, WeakOk, Closed, Within;
    assert Marked(s') == Marked(s);
    assert NoDangling(s') by { DanglingSame(s, s'); }
    BlacksStay(s, s', busy, busy);
    OpensStay(s, s', busy, busy);
    WeakStays(s, s');
    GrayListsSame(s, s');
    assert forall x :: Waiting(s', busy, x) == Waiting(s, busy, x);
  }

  lemma PropagateStepOk(s: State, c: set<Ref>)
    requires Inv(s) && s.phase == Propagate && s.gray != [] && Bounded(s, c)
    ensures Inv(PropagateMark(s)) && Bounded(PropagateMark(s), c) && Changes(s, PropagateMark(s))
  {
    var s' := PropagateMark(s);
    var busy := GrayOpens(s);
    assert s.main in s.heap && s.running in s.heap && RootsAlive(s);
    assert NeverBlack(s.heap, s.color);
    assert forall x :: x in busy ==> x in s.heap && s.heap[x].OpenUpval?;
    NoDead(s, busy);
    hide Tri, Bounded, Wf, Live, Visits, PropagateMark, GrayOpens, LinksDone, OnlyAllWeak;
    PropagateMarkOk(s, busy, c);
    PropagateMarkVisits(s);
    VisitsMarked(s, s');
    VisitsChanges(s, s');
    VisitKinds(s, s', busy);
    MoreBusy(s', busy);
    ChangesStructure(s, s');
    ChangesRoots(s, s');
    TriLive(s', busy);
    TriNeverBlack(s', busy);
    StructureWf(s, s', {});
    WeakStaysWeak(s, s');
  }

  lemma ChangesRoots(s: State, s': State)
    requires Changes(s, s')
    ensures s'.globals == s.globals && s'.main == s.main && s'.running == s.running && s'.phase == s.phase
    ensures s'.uvhead == s.uvhead && s'.current == s.current
  {
  }

  lemma VisitKinds(s: State, s': State, busy: set<Ref>)
    requires Visits(s, s') && forall x :: x in busy ==> x in s.heap && s.heap[x].OpenUpval?
    ensures forall x :: x in busy ==> x in s'.heap && s'.heap[x].OpenUpval?
  {
    forall x | x in busy
      ensures x in s'.heap && s'.heap[x].OpenUpval?
    {
      assert Quiet(s.heap[x], s'.heap[x]);
    }
  }

  lemma WeakStaysWeak(s: State, s': State)
    requires OnlyAllWeak(s) && Visits(s, s') && s.gray != [] && LinksDone(s, s', s.gray[0]) && s.phase == Propagate
    ensures OnlyAllWeak(s')
  {
    forall r | r in s'.allweak
      ensures r in s'.heap && s'.heap[r].Table? && s'.heap[r].mode.AllWeak?
    {
      if r in s.allweak { assert Quiet(s.heap[r], s'.heap[r]); }
    }
  }

  // ----- the atomic phase -----

  lemma AllDoneStart(s: State, busy: set<Ref>)
    requires Tri(s, busy) && OnlyAllWeak(s)
    ensures AllDone(s)
  {
    assert WeakOk(s);
    forall r | r in s.allweak
      ensures AllWeakDone(s, r)
    {
      var i :| 0 <= i < |s.allweak| && s.allweak[i] == r;
    }
  }

  lemma AllDoneStays(s: State, s': State)
    requires AllDone(s) && Visits(s, s') && SameLists(s, s')
    ensures AllDone(s')
  {
    hide Visits, AllWeakDone;
    forall r | r in s'.allweak
      ensures AllWeakDone(s', r)
    {
      DoneStays(s, s', r);
    }
  }

  lemma {:induction false} RemarkLists(s: State, uvs: seq<Ref>)
    ensures SameLists(s, RemarkUpvals(s, uvs))
    decreases |uvs|
  {
    hide Visits;
    if uvs != [] {
      var s1 := RemarkUpval(s, uvs[0]);
      if uvs[0] in s.heap && s.heap[uvs[0]].OpenUpval? {
        MarkValueVisits(s, Slot(s.heap, s.heap[uvs[0]].thread, s.heap[uvs[0]].idx));
      }
      RemarkLists(s1, uvs[1..]);
    }
  }

  /** The roots are marked, and the values of the open upvalues that are. */
  lemma RootsMarked(s: State, c: set<Ref>)
    requires Inv(s) && s.phase == Propagate && Bounded(s, c) && RootsIn(s, c)
    ensures var s1 := MarkAll(MarkValue(s.(phase := Atomic), Obj(s.running)), s.globals);
            var s2 := RemarkUpvals(s1, s.uvhead);
            && Tri(s2, {}) && Bounded(s2, c) && s2.phase == Atomic && AllDone(s2)
            && Changes(s.(phase := Atomic), s2)
            && s.main in Marked(s2) && s.running in Marked(s2) && AllIn(s.globals, Marked(s2))
  {
    var s0 := s.(phase := Atomic);
    var busy := GrayOpens(s);
    hide Inv, Tri, Bounded, Wf, Live, Visits, Changes, MarkValue, MarkAll, RemarkUpvals, AllDone, Marking, GrayOpens;
    BusyListed(s);
    PhaseTri(s, s0, busy, c);
    AllDoneStart(s0, busy) by { assert OnlyAllWeak(s0); }
    hide OnlyAllWeak;
    var s1 := MarkValue(s0, Obj(s.running));
    var s2 := MarkAll(s1, s.globals);
    var s3 := RemarkUpvals(s2, s.uvhead);
    RootsHeld(s);
    MarkValueOk(s0, Obj(s.running), busy, c);
    MarkValueVisits(s0, Obj(s.running));
    MarksHeap(s0, s1);
    MarkAllOk(s1, s.globals, busy, c);
    MarkAllVisits(s1, s.globals);
    VisitsMarked(s1, s2);
    assert s1.heap == s.heap && s2.heap == s.heap;
    RemarkOk(s2, s.uvhead, busy, c);
    VisitsMarked(s2, s3);
    RemarkLists(s2, s.uvhead);
    AllDoneStays(s0, s1);
    AllDoneStays(s1, s2);
    AllDoneStays(s2, s3);
    VisitsChanges(s0, s1);
    VisitsChanges(s1, s2);
    VisitsChanges(s2, s3);
    ChangesTrans(s0, s1, s2);
    ChangesTrans(s0, s2, s3);
    ChangesRoots(s0, s3);
  }

  lemma RootsHeld(s: State)
    requires Inv(s) && s.phase == Propagate
    ensures s.running in s.heap && AllIn(s.globals, s.heap.Keys)
  {
    NoDead(s, GrayOpens(s));
  }

  lemma BusyListed(s: State)
    requires Inv(s) && s.phase == Propagate
    ensures forall x :: x in GrayOpens(s) ==> x in s.uvhead && x in s.heap && s.heap[x].OpenUpval?
    ensures Tri(s, GrayOpens(s)) && OnlyAllWeak(s) && s.main in Marked(s)
  {
    assert HeadOk(s.heap, s.uvhead);
    forall x | x in GrayOpens(s)
      ensures x in s.uvhead
    {
      assert multiset(s.uvhead)[x] == 1;
    }
  }

  lemma MarkRestOk(s: State, c: set<Ref>)
    requires Inv(s) && s.phase == Propagate && Bounded(s, c) && RootsIn(s, c)
    ensures var s' := MarkRest(s);
            && Converged(s') && Bounded(s', c) && Changes(s.(phase := Atomic), s')
            && s.main in Marked(s') && s.running in Marked(s') && AllIn(s.globals, Marked(s'))
  {
    hide Tri, Bounded, Inv, Visits, Changes, AllDone, RemarkUpvals, MarkAll, MarkValue, Visited, AllSettled;
    hide PropagateAll, RetraverseGrays, Converge;
    var s0 := s.(phase := Atomic);
    var s1 := RemarkUpvals(MarkAll(MarkValue(s0, Obj(s.running)), s.globals), s.uvhead);
    RootsMarked(s, c);
    RemarkHead(s);
    var s2 := PropagateAll(s1);
    PropagateAllOk(s1, {}, c);
    PropagateAllVisits(s1);
    VisitsMarked(s1, s2);
    VisitsChanges(s1, s2);
    ChangesTrans(s0, s1, s2);
    var s3 := RetraverseGrays(s2);
    RetraverseOk(s2, c);
    ChangesTrans(s0, s2, s3);
    var s4 := Converge(s3);
    ConvergeOk(s3, c);
    ChangesTrans(s0, s3, s4);
    assert s4 == MarkRest(s);
    MarkedMono(s.globals, Marked(s1), Marked(s4));
  }

  lemma RemarkHead(s: State)
    ensures MarkAll(MarkValue(s.(phase := Atomic), Obj(s.running)), s.globals).uvhead == s.uvhead
  {
    var s0 := s.(phase := Atomic);
    MarkValueVisits(s0, Obj(s.running));
    MarkAllVisits(MarkValue(s0, Obj(s.running)), s.globals);
  }

  lemma MarkedMono(vs: seq<Value>, p: set<Ref>, q: set<Ref>)
    requires AllIn(vs, p) && p <= q
    ensures AllIn(vs, q)
  {
  }

  /** The atomic step: every reference of an object that is not dead afterwards is to such an object. */
  lemma AtomicOk(s: State, c: set<Ref>)
    requires Inv(s) && s.phase == Propagate && Bounded(s, c) && RootsIn(s, c)
    ensures var s' := AtomicStep(s);
            Wf(s', {}) && Live(s') && Alive(s') <= c && s'.phase == Atomic && SameStructure(s, s')
  {
    var s0 := s.(phase := Atomic);
    var s1 := MarkRest(s);
    var s2 := ClearWeak(s1);
    var s' := s2.(current := !s2.current);
    MarkRestOk(s, c);
    assert Wf(s, {}) && s'.phase == s2.phase;
    hide Tri, Bounded, Inv, Changes, MarkRest, ClearWeak, Converged, Wf, Live, SameStructure, Clears, MarkedClosed;
    ClearWeakOk(s1, c);
    ChangesRoots(s0, s1);
    ClearsRoots(s1, s2);
    ChangesStructure(s0, s1);
    ClearsStructure(s1, s2);
    StructureTrans(s0, s1, s2);
    PhaseStructure(s, s0, s2, s');
    ClearsMarked(s1, s2);
    TriNeverBlack(s2, {});
    StructureWf(s, s', {});
    FlipLive(s2, s', c) by { BoundedMarked(s2, c); MarkedMono(s.globals, Marked(s1), Marked(s2)); }
  }

  lemma ClearsRoots(s: State, s': State)
    requires Clears(s, s')
    ensures s'.globals == s.globals && s'.main == s.main && s'.running == s.running && s'.phase == s.phase
  {
  }

  lemma PhaseStructure(s: State, s0: State, s2: State, s': State)
    requires s0 == s.(phase := Atomic) && SameStructure(s0, s2) && s' == s2.(current := !s2.current)
    ensures SameStructure(s, s')
  {
  }

  lemma FlipLive(s: State, s': State, c: set<Ref>)
    requires Tri(s, {}) && MarkedClosed(s) && s' == s.(current := !s.current)
    requires s.main in Marked(s) && s.running in Marked(s) && AllIn(s.globals, Marked(s)) && Marked(s) <= c
    ensures Live(s') && Alive(s') <= c
  {
    assert Alive(s') == Marked(s);
  }

  // ----- entering the sweep phase -----

  lemma EnterSweepOk(s: State)
    requires Wf(s, {}) && Live(s)
    ensures var s' := EnterSweep(s);
            SweepInv(s') && s'.phase == SweepString && Alive(s') == Alive(s) && s'.current == s.current
  {
    var s1 := s.(phase := SweepString, strBefore := [], strAfter := s.strBefore + s.strAfter,
                 before := [], after := s.before + s.after);
    assert StringCounts(s1) == StringCounts(s) && ObjectCounts(s1) == ObjectCounts(s);
    AllToSweep(s, s1);
    hide OpenListsOk, Hooked, HeadOk, NeverBlack, StringCounts, ObjectCounts, Swept;
    assert forall x :: InObjectList(s1, x) == InObjectList(s, x);
    PlacesSame(s, s1, {});
    hide PlacesOk;
    LiveSame(s, s1);
    hide Live, Wf, Shrinks;
    SweepToLiveOk(s1, |s1.after|);
    ShrunkAlive(s1, SweepToLive(s1, |s1.after|));
  }

  lemma ShrunkAlive(s: State, s': State)
    requires Shrinks(s, s')
    ensures Alive(s') == Alive(s) && s'.current == s.current
  {
  }

  lemma AllToSweep(s: State, s1: State)
    requires Wf(s, {}) && s1.heap == s.heap && s1.color == s.color && s1.main == s.main && s1.current == s.current
    requires s1.strAfter == s.strBefore + s.strAfter && s1.after == s.before + s.after
    ensures Swept(s1, {})
  {
    assert multiset(s1.after) == ObjectCounts(s) && multiset(s1.strAfter) == StringCounts(s);
    hide ObjectCounts, StringCounts;
    forall r | r in s1.heap
      ensures ToSweep(s1, r, {})
    {
      if s.heap[r].OpenUpval? {
        if s.heap[r].thread != s.main { InSomeList(s, s1, s.heap[r].thread); }
      } else if r != s.main {
        InSomeList(s, s1, r);
      }
    }
  }

  lemma InSomeList(s: State, s1: State, r: Ref)
    requires PlacesOk(s, {}) && multiset(s1.after) == ObjectCounts(s) && multiset(s1.strAfter) == StringCounts(s)
    requires r in s.heap && !s.heap[r].OpenUpval? && r != s.main
    ensures r in s1.after || r in s1.strAfter
    ensures s.heap[r].Thread? ==> r in s1.after
  {
    hide ObjectCounts, StringCounts;
    assert multiset(s1.after)[r] == 1 || multiset(s1.strAfter)[r] == 1;
    assert s.heap[r].Thread? ==> multiset(s1.after)[r] == 1;
  }

  // ----- all steps -----

  lemma SweepStepOk(s: State, n: nat)
    requires Inv(s) && IsSweeping(s.phase)
    ensures Inv(SingleStep(s, n)) && Shrinks(s, SingleStep(s, n))
  {
    hide Inv, Shrinks, SingleStep;
    match s.phase
    case SweepString => StringsOk(s, n);
    case SweepUdata => UdataOk(s, n);
    case Sweep => SweepOk(s, n);
  }

  lemma StringsOk(s: State, n: nat)
    requires Inv(s) && s.phase == SweepString
    ensures Inv(SingleStep(s, n)) && Shrinks(s, SingleStep(s, n))
  {
    hide Inv, SweepInv, Shrinks, Wf, Live, Swept, SweepStrings;
    SweepFacts(s);
    SweepStringsOk(s, n);
    var s1 := SweepStrings(s, n);
    NextPhase(s, s1, SweepUdata);
    if s1.strAfter == [] {
      SweepingInv(s1.(phase := SweepUdata));
    } else {
      SweepInvIs(s1);
    }
  }

  lemma SweepFacts(s: State)
    requires Inv(s) && IsSweeping(s.phase)
    ensures SweepInv(s)
    ensures s.phase == SweepUdata || s.phase == Sweep ==> s.strAfter == []
  {
  }

  lemma SweepingInv(s: State)
    requires Wf(s, {}) && Live(s) && Swept(s, {}) && s.strAfter == [] && (s.phase == SweepUdata || s.phase == Sweep)
    ensures Inv(s)
  {
  }

  lemma UdataOk(s: State, n: nat)
    requires Inv(s) && s.phase == SweepUdata
    ensures Inv(SingleStep(s, n)) && Shrinks(s, SingleStep(s, n))
  {
    hide Inv, SweepInv, Shrinks, Wf, Live, Swept;
    SweepFacts(s);
    ShrinksRefl(s);
    NextPhase(s, s, Sweep);
    SweepingInv(s.(phase := Sweep));
  }

  lemma SweepOk(s: State, n: nat)
    requires Inv(s) && s.phase == Sweep
    ensures Inv(SingleStep(s, n)) && Shrinks(s, SingleStep(s, n))
  {
    hide Wf, Live, Swept, Shrinks, AllWhite, SweepStrings, SweepObjects, KeepObject;
    assert SweepInv(s);
    if s.after != [] {
      SweepObjectsOk(s, n);
    } else {
      SweepMainOk(s);
      NextPhase(s, KeepObject(s, s.main), Pause);
    }
  }

  lemma NextPhase(s: State, s1: State, p: Phase)
    requires SweepInv(s1) && Shrinks(s, s1)
    ensures var s' := s1.(phase := p);
            && Wf(s', {}) && Live(s') && Swept(s', {}) && Shrinks(s, s')
            && (AllWhite(s1) ==> AllWhite(s'))
  {
    var s' := s1.(phase := p);
    SameShrinks2(s, s1, s');
    hide Shrinks, PlacesOk, UpvalsOk;
    PhaseWf(s1, s');
    LiveSame(s1, s');
  }

  // ----- the bound -----

  lemma AllClosed(s: State)
    requires NoDangling(s)
    ensures Closed(s.heap, s.heap.Keys)
  {
    forall r | r in s.heap
      ensures StrongWithin(s.heap, r, s.heap.Keys)
    {
      WithinStrong(s.heap, r, s.heap.Keys, s.heap.Keys);
    }
  }

  lemma InvRoots(s: State)
    requires Inv(s)
    ensures RootsIn(s, s.heap.Keys)
  {
  }

  /** Every single step keeps the invariant. */
  lemma SingleStepOk(s: State, n: nat)
    requires Inv(s)
    ensures Inv(SingleStep(s, n))
  {
    InvRoots(s);
    match s.phase
    case Pause =>
      WhiteLive(s);
      AllClosed(s);
      RestartOk(s, s.heap.Keys);
    case Propagate =>
      MarkingBound(s);
      hide Inv, Wf, Live, Bounded, Swept;
      if s.gray != [] {
        PropagateStepOk(s, s.heap.Keys);
      } else {
        AtomicOk(s, s.heap.Keys);
        EnterSweepOk(AtomicStep(s));
        SweepInvIs(EnterSweep(AtomicStep(s)));
      }
    case _ => SweepStepOk(s, n);
  }

  lemma SweepInvIs(s: State)
    requires SweepInv(s) && s.phase == SweepString
    ensures Inv(s)
  {
  }

  lemma MarkingBound(s: State)
    requires Inv(s) && s.phase == Propagate
    ensures Bounded(s, s.heap.Keys)
  {
    assert NoDangling(s) && Marked(s) <= s.heap.Keys;
    AllClosed(s);
  }

  /** What this cycle keeps: while marking is not over, a closed set with the roots and all that is marked;
      then the objects that are not dead. */
  ghost predicate Needed(s: State, c: set<Ref>) {
    match s.phase
    case Pause => Closed(s.heap, c) && RootsIn(s, c)
    case Propagate => Bounded(s, c) && RootsIn(s, c)
    case _ => Alive(s) <= c
  }

  /** A step marks nothing beyond what is needed; when the cycle ends, nothing else is left. */
  lemma StepNeeded(s: State, n: nat, c: set<Ref>)
    requires Inv(s) && Needed(s, c)
    ensures var s' := SingleStep(s, n);
            if s'.phase == Pause && s.phase != Pause then s'.heap.Keys <= c else Needed(s', c)
  {
    assert s.phase != Atomic;
    hide Inv, Wf, Live, Bounded, Closed, Swept, Marking;
    match s.phase
    case Pause =>
      RestartOk(s, c);
      ChangesRoots(s.(phase := Propagate), Restart(s));
    case Propagate =>
      if s.gray != [] {
        PropagateStepOk(s, c);
        ChangesRoots(s, PropagateMark(s));
      } else {
        AtomicOk(s, c);
        EnterSweepOk(AtomicStep(s));
      }
    case _ => SweepNeeded(s, n, c);
  }

  lemma SweepNeeded(s: State, n: nat, c: set<Ref>)
    requires Inv(s) && IsSweeping(s.phase) && Alive(s) <= c
    ensures Alive(SingleStep(s, n)) <= c && SingleStep(s, n).phase != Propagate
    ensures SingleStep(s, n).phase == Pause ==> SingleStep(s, n).heap.Keys <= c
  {
    var s' := SingleStep(s, n);
    assert SweepInv(s);
    SweepStepOk(s, n);
    ShrunkAlive(s, s');
    SweepPhases(s, n);
    if s'.phase == Pause { WhiteLive(s'); }
  }

  lemma SweepPhases(s: State, n: nat)
    requires SweepInv(s) && IsSweeping(s.phase)
    ensures var p := SingleStep(s, n).phase; p == Pause || IsSweeping(p)
  {
    hide Wf, Live, Swept, Shrinks;
    SweepStringsOk(s, n);
    SweepObjectsOk(s, n);
  }

}

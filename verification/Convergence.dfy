/** The marking part of the atomic phase: afterwards the marked objects are the least set that contains
    what was marked before and the roots, and is closed under the references that keep objects alive. */
module Convergence {
  import opened CollectorState
  import opened Tricolor
  import opened Traversal
  import opened Visiting
  import opened Propagation
  import opened AtomicPhase

  function Elems(l: seq<Ref>): set<Ref> {
    set i | 0 <= i < |l| :: l[i]
  }

  // ----- moving whole lists -----

  lemma Relist(s: State, s': State, busy: set<Ref>, busy': set<Ref>, c: set<Ref>)
    requires Tri(s, busy) && Bounded(s, c) && s'.heap == s.heap && s'.color == s.color && s'.current == s.current
    requires ListsOk(s', busy') && WeakOk(s') && busy' <= Marked(s)
    requires forall x :: x in busy && x !in busy' ==> x in s.heap && s.color[x] == Gray && !s.heap[x].OpenUpval?
    ensures Tri(s', busy') && Bounded(s', c)
  {
    hide BlackOk, Closed, GrayLists, WeakOk, ListsOk;
    assert Marked(s') == Marked(s);
    assert NoDangling(s') by { DanglingSame(s, s'); }
    BlacksStay(s, s', busy, busy');
    OpensStay(s, s', busy, busy');
  }

  /** The elements of the list are distinct and none of them is in a gray list of the state. */
  ghost predicate Aside(s: State, l: seq<Ref>, busy: set<Ref>) {
    && (forall x :: multiset(l)[x] <= 1)
    && forall x :: x in l ==> x in busy && x in s.heap && x in s.color && s.color[x] == Gray && Listable(s.heap[x])
  }

  lemma AttachCounts(s: State, l: seq<Ref>, busy: set<Ref>)
    requires s.color.Keys == s.heap.Keys && ListsOk(s, busy) && s.gray == [] && Aside(s, l, busy)
    ensures ListsOk(s.(gray := l), busy - Elems(l))
  {
    var s' := s.(gray := l);
    assert GrayLists(s') == GrayLists(s) + multiset(l);
    assert forall x :: x in l ==> !s.heap[x].OpenUpval?;
    hide GrayLists, Listable;
    forall x
      ensures GrayLists(s')[x] == if Waiting(s', busy - Elems(l), x) then 1 else 0
      ensures Waiting(s', busy - Elems(l), x) ==> Listable(s'.heap[x])
    {
      assert x in l <==> x in Elems(l);
      assert x in l ==> multiset(l)[x] == 1;
      assert x !in l ==> multiset(l)[x] == 0;
    }
  }

  /** `propagatelist` takes up a list that was set aside. */
  lemma Attach(s: State, l: seq<Ref>, busy: set<Ref>, c: set<Ref>)
    requires Tri(s, busy) && Bounded(s, c) && s.gray == [] && Aside(s, l, busy)
    ensures Tri(s.(gray := l), busy - Elems(l)) && Bounded(s.(gray := l), c)
  {
    var s' := s.(gray := l);
    hide GrayLists, ListsOk, BlackOk, BlacksOk, OpensOk, NoDangling, Closed, Bounded;
    AttachCounts(s, l, busy);
    assert WeakOk(s') by { assert Marked(s') == Marked(s); }
    forall x | x in busy && x !in busy - Elems(l)
      ensures x in s.heap && s.color[x] == Gray && !s.heap[x].OpenUpval?
    {
      assert x in l;
    }
    Relist(s, s', busy, busy - Elems(l), c);
  }

  lemma DetachCounts(s: State, s': State, l: seq<Ref>, busy: set<Ref>)
    requires s.color.Keys == s.heap.Keys && ListsOk(s, busy) && s'.heap == s.heap && s'.color == s.color
    requires GrayLists(s) == GrayLists(s') + multiset(l)
    ensures ListsOk(s', busy + Elems(l)) && Aside(s', l, busy + Elems(l))
    ensures Elems(l) !! busy && forall x :: x in l ==> x in s.heap && s.color[x] == Gray
  {
    hide GrayLists, Listable;
    forall x
      ensures x in l ==> Waiting(s, busy, x) && multiset(l)[x] == 1
      ensures multiset(l)[x] <= 1
      ensures GrayLists(s')[x] == if Waiting(s', busy + Elems(l), x) then 1 else 0
    {
      assert x in l <==> x in Elems(l);
      assert x in l <==> multiset(l)[x] > 0;
      assert GrayLists(s)[x] == GrayLists(s')[x] + multiset(l)[x];
    }
  }

  lemma Detach(s: State, s': State, l: seq<Ref>, busy: set<Ref>, c: set<Ref>)
    requires Tri(s, busy) && Bounded(s, c) && WeakOk(s')
    requires s' == s.(weak := s'.weak, grayagain := s'.grayagain, ephemeron := s'.ephemeron)
    requires GrayLists(s) == GrayLists(s') + multiset(l)
    ensures Tri(s', busy + Elems(l)) && Bounded(s', c) && Aside(s', l, busy + Elems(l)) && Elems(l) !! busy
  {
    DetachCounts(s, s', l, busy);
    hide GrayLists, ListsOk, BlackOk, BlacksOk, OpensOk, NoDangling, Closed, WeakOk;
    forall x | x in Elems(l)
      ensures x in Marked(s)
    {
      assert x in l;
    }
    Relist(s, s', busy, busy + Elems(l), c);
  }

  // ----- what is set aside keeps its colour -----

  ghost predicate Holds(s: State, s': State, busy: set<Ref>) {
    forall x :: x in busy && x in s.color ==> x in s'.color && s'.color[x] == s.color[x]
  }

  ghost predicate SteadyBut(s: State, s': State, r: Ref) {
    forall x :: x in s.color && !s.color[x].White? && x != r ==> x in s'.color && s'.color[x] == s.color[x]
  }

  lemma TraverseTableSteady(s: State, r: Ref)
    requires r in s.heap && s.heap[r].Table?
    ensures SteadyBut(s, TraverseTable(s, r), r)
  {
    var o := s.heap[r];
    var s1 := MarkValue(s, o.meta);
    MarkValueMarks(s, o.meta);
    assert Steady(s, s1);
    hide MarkValue, Marks, MarkAll, StrongEntries, WeakValueEntries, EphemeronArray, EphemeronEntries;
    match o.mode
    case Strong =>
      MarkAllSteady(s1, o.arr);
      StrongEntriesSteady(MarkAll(s1, o.arr), r, 0, |o.hash|);
    case WeakValues =>
      WeakValueEntriesSteady(Regray(s1, r), r, 0, |o.hash|, o.arr != []);
    case WeakKeys => EphemeronSteady(Regray(s1, r), r);
    case AllWeak =>
  }

  lemma EphemeronSteady(s: State, r: Ref)
    requires r in s.heap && s.heap[r].Table?
    ensures Steady(s, TraverseEphemeron(s, r).0)
  {
    var o := s.heap[r];
    hide MarkAll, EphemeronArray, EphemeronEntries;
    EphemeronArrayMarks(s, o.arr, Found(false, false, false));
    MarkAllSteady(s, o.arr);
    var (s1, f1) := EphemeronArray(s, o.arr, Found(false, false, false));
    EphemeronEntriesSteady(s1, r, 0, |o.hash|, f1);
  }

  lemma PropagateMarkSteady(s: State)
    requires s.gray != []
    ensures SteadyBut(s, PropagateMark(s), s.gray[0])
  {
    hide MarkAll, TraverseTable;
    var r := s.gray[0];
    var s1 := Blacken(s, r).(gray := s.gray[1..]);
    assert SteadyBut(s, s1, r);
    if r in s1.heap {
      match s1.heap[r]
      case Table(_, _, _, _) => TraverseTableSteady(s1, r);
      case Closure(refs) => MarkAllSteady(s1, refs);
      case Thread(stack, _, _) => MarkAllSteady(Regray(LinkAgain(s1, r), r), stack[..Used(s1.heap[r])]);
      case Proto(refs, _) =>
        var p := s1.heap[r];
        MarkAllSteady(if IsWhite(s1, p.cache) then s1.(heap := s1.heap[r := p.(cache := Nil)]) else s1, refs);
      case _ =>
    }
  }

  lemma {:induction false} PropagateAllHolds(s: State, busy: set<Ref>, c: set<Ref>)
    requires Tri(s, busy) && Bounded(s, c)
    ensures Holds(s, PropagateAll(s), busy)
    decreases Load(s)
  {
    hide PropagateMark, Visits, Bounded, Load;
    if s.gray != [] {
      PropagateMarkVisits(s);
      PropagateMarkSteady(s);
      PropagateMarkOk(s, busy, c);
      Unlist(s, busy, c);
      assert busy <= Marked(s);
      hide Tri;
      PropagateAllHolds(PropagateMark(s), busy, c);
    }
  }

  // ----- open upvalues -----

  lemma {:induction false} RemarkOk(s: State, uvs: seq<Ref>, busy: set<Ref>, c: set<Ref>)
    requires Tri(s, busy) && Bounded(s, c)
    requires forall x :: x in busy ==> x in uvs && x in s.heap && s.heap[x].OpenUpval?
    ensures Tri(RemarkUpvals(s, uvs), {}) && Bounded(RemarkUpvals(s, uvs), c)
    ensures Visits(s, RemarkUpvals(s, uvs))
    decreases |uvs|
  {
    hide Bounded, Visits, BlacksOk, ListsOk, NoDangling, WeakOk;
    if uvs == [] {
      assert busy == {};
      VisitsRefl(s);
    } else {
      var s1 := RemarkUpval(s, uvs[0]);
      RemarkUpvalOk(s, uvs[0], busy, c);
      VisitsMarked(s, s1);
      forall x | x in busy - {uvs[0]}
        ensures x in uvs[1..] && x in s1.heap && s1.heap[x].OpenUpval?
      {
        assert x in uvs;
        assert Quiet(s.heap[x], s1.heap[x]);
      }
      RemarkOk(s1, uvs[1..], busy - {uvs[0]}, c);
      VisitsTrans(s, s1, RemarkUpvals(s, uvs));
    }
  }

  lemma RemarkUpvalOk(s: State, uv: Ref, busy: set<Ref>, c: set<Ref>)
    requires Tri(s, busy) && Bounded(s, c)
    requires forall x :: x in busy ==> x in s.heap && s.heap[x].OpenUpval?
    ensures Tri(RemarkUpval(s, uv), busy - {uv}) && Bounded(RemarkUpval(s, uv), c) && Visits(s, RemarkUpval(s, uv))
  {
    if uv in s.heap && uv in s.color && s.color[uv] == Gray && s.heap[uv].OpenUpval? {
      RemarkGray(s, uv, busy, c);
    } else {
      if uv in busy { UpvalInBusy(s, uv, busy); }
      assert busy - {uv} == busy;
      VisitsRefl(s);
    }
  }

  lemma UpvalInBusy(s: State, uv: Ref, busy: set<Ref>)
    requires Tri(s, busy) && uv in busy && uv in s.heap && s.heap[uv].OpenUpval?
    ensures uv in s.color && s.color[uv] == Gray
  {
    assert uv in Marked(s) && OpensOk(s, busy);
  }

  lemma RemarkGray(s: State, uv: Ref, busy: set<Ref>, c: set<Ref>)
    requires Tri(s, busy) && Bounded(s, c) && uv in s.heap && uv in s.color && s.color[uv] == Gray
    requires s.heap[uv].OpenUpval?
    ensures Tri(RemarkUpval(s, uv), busy - {uv}) && Bounded(RemarkUpval(s, uv), c) && Visits(s, RemarkUpval(s, uv))
  {
    var v := Slot(s.heap, s.heap[uv].thread, s.heap[uv].idx);
    assert RemarkUpval(s, uv) == MarkValue(s, v);
    assert uv in Marked(s);
    hide Bounded, Tri, Visits, OpensOk, Marks, Load, RemarkUpval, MarkValue, Marked;
    BoundedMarked(s, c);
    MarkFields(s, uv, busy, c);
    MarkValueOk(s, v, busy, c);
    MarkValueVisits(s, v);
    SettleMarked(s, MarkValue(s, v), uv, busy, c);
  }

  lemma SettleMarked(s: State, s1: State, uv: Ref, busy: set<Ref>, c: set<Ref>)
    requires Tri(s1, busy) && s1.heap == s.heap && uv in s.heap && s.heap[uv].OpenUpval?
    requires In(Slot(s.heap, s.heap[uv].thread, s.heap[uv].idx), Marked(s1))
    ensures Tri(s1, busy - {uv})
  {
    hide Tri, Marked;
    if uv in busy {
      assert busy - {uv} + {uv} == busy;
      Settle(s1, uv, busy - {uv}, c);
    } else {
      assert busy - {uv} == busy;
    }
  }

  // ----- the lists are visited again -----

  lemma ListPropagated(s: State, l: seq<Ref>, busy: set<Ref>, c: set<Ref>)
    requires Tri(s, busy) && Bounded(s, c) && s.gray == [] && Aside(s, l, busy) && s.phase == Atomic && Visited(s)
    ensures var s' := PropagateList(s, l);
            && Tri(s', busy - Elems(l)) && Bounded(s', c) && s'.gray == [] && Visited(s') && Visits(s.(gray := l), s')
            && s'.phase == Atomic && Holds(s, s', busy - Elems(l)) && s'.heap.Keys == s.heap.Keys &&
                Marked(s) <= Marked(s')
            && (forall r :: r in s.heap ==> Quiet(s.heap[r], s'.heap[r])) && Changes(s, s')
  {
    hide Tri, Bounded, Visits, Changes;
    ListsChange(s, s.(gray := l));
    var s1 := s.(gray := l);
    Attach(s, l, busy, c);
    assert Visited(s1) by { VisitedSame(s, s1); }
    PropagateAllOk(s1, busy - Elems(l), c);
    PropagateAllVisits(s1);
    PropagateAllHolds(s1, busy - Elems(l), c);
    VisitsMarked(s1, PropagateAll(s1));
    assert Marked(s1) == Marked(s);
    VisitsChanges(s1, PropagateAll(s1));
    ChangesTrans(s, s1, PropagateAll(s1));
  }

  lemma VisitedSame(s: State, s': State)
    requires Visited(s) && s'.heap == s.heap && s'.color == s.color && SameLists(s, s')
    ensures Visited(s')
  {
    assert Marked(s') == Marked(s);
  }

  lemma AsideAfter(s: State, s': State, l: seq<Ref>, busy: set<Ref>, rest: set<Ref>)
    requires Aside(s, l, busy) && Holds(s, s', rest) && Elems(l) <= rest && s'.heap.Keys == s.heap.Keys
    requires forall r :: r in s.heap ==> Quiet(s.heap[r], s'.heap[r])
    ensures Aside(s', l, rest)
  {
    forall x | x in l
      ensures x in rest && x in s'.heap && x in s'.color && s'.color[x] == Gray && Listable(s'.heap[x])
    {
      assert x in Elems(l);
      assert Quiet(s.heap[x], s'.heap[x]);
    }
  }

  lemma SplitAside(s: State, l1: seq<Ref>, l2: seq<Ref>, l3: seq<Ref>, busy: set<Ref>)
    requires Aside(s, l1 + l2 + l3, busy)
    ensures Aside(s, l1, busy) && Aside(s, l2, busy) && Aside(s, l3, busy)
    ensures Elems(l1) !! Elems(l2) && Elems(l1) !! Elems(l3) && Elems(l2) !! Elems(l3)
    ensures Elems(l1 + l2 + l3) == Elems(l1) + Elems(l2) + Elems(l3)
  {
    var l := l1 + l2 + l3;
    assert multiset(l) == multiset(l1) + multiset(l2) + multiset(l3);
    hide Listable, Elems;
    forall x
      ensures x in l <==> x in l1 || x in l2 || x in l3
      ensures multiset(l1)[x] + multiset(l2)[x] + multiset(l3)[x] <= 1
    {
      assert multiset(l)[x] == multiset(l1)[x] + multiset(l2)[x] + multiset(l3)[x];
      assert multiset(l)[x] <= 1;
    }
    SplitElems(l1, l2, l3);
  }

  lemma SplitElems(l1: seq<Ref>, l2: seq<Ref>, l3: seq<Ref>)
    requires forall x :: multiset(l1)[x] + multiset(l2)[x] + multiset(l3)[x] <= 1
    ensures Elems(l1) !! Elems(l2) && Elems(l1) !! Elems(l3) && Elems(l2) !! Elems(l3)
    ensures Elems(l1 + l2 + l3) == Elems(l1) + Elems(l2) + Elems(l3)
  {
    hide Elems;
    forall x
      ensures (x in Elems(l1) <==> multiset(l1)[x] > 0) && (x in Elems(l2) <==> multiset(l2)[x] > 0)
      ensures x in Elems(l3) <==> multiset(l3)[x] > 0
      ensures x in Elems(l1 + l2 + l3) <==> x in Elems(l1) || x in Elems(l2) || x in Elems(l3)
    {
      ElemsIs(l1 + l2 + l3, x);
      ElemsIs(l1, x);
      ElemsIs(l2, x);
      ElemsIs(l3, x);
    }
  }

  lemma ElemsIs(l: seq<Ref>, x: Ref)
    ensures x in Elems(l) <==> x in l
  {
  }

  lemma DetachAll(s: State, c: set<Ref>)
    requires Tri(s, {}) && Bounded(s, c) && AllDone(s)
    ensures var s1 := s.(weak := [], grayagain := [], ephemeron := []);
            var l := s.grayagain + s.weak + s.ephemeron;
            Tri(s1, Elems(l)) && Bounded(s1, c) && Aside(s1, l, Elems(l)) && Visited(s1)
  {
    var s1 := s.(weak := [], grayagain := [], ephemeron := []);
    var l := s.grayagain + s.weak + s.ephemeron;
    assert GrayLists(s) == GrayLists(s1) + multiset(l) by {
      assert multiset(l) == multiset(s.grayagain) + multiset(s.weak) + multiset(s.ephemeron);
    }
    assert Marked(s1) == Marked(s);
    assert WeakOk(s1) by { assert WeakOk(s); }
    assert Visited(s1);
    hide Tri, Bounded, GrayLists;
    Detach(s, s1, l, {}, c);
    assert {} + Elems(l) == Elems(l);
  }

  lemma RetraverseOk(s: State, c: set<Ref>)
    requires Tri(s, {}) && Bounded(s, c) && s.gray == [] && s.phase == Atomic && AllDone(s)
    ensures var s' := RetraverseGrays(s);
            && Tri(s', {}) && Bounded(s', c) && s'.gray == [] && s'.phase == Atomic && Visited(s')
            && s'.heap.Keys == s.heap.Keys && Marked(s) <= Marked(s') && Changes(s, s')
  {
    hide Tri, Bounded, Visits, Visited, Aside, Quiet, PropagateList, Holds, Elems, Changes;
    var l1, l2, l3 := s.grayagain, s.weak, s.ephemeron;
    var s0 := s.(weak := [], grayagain := [], ephemeron := []);
    DetachAll(s, c);
    var busy := Elems(l1 + l2 + l3);
    SplitAside(s0, l1, l2, l3, busy);
    assert PropagateAll(s0) == s0;
    assert Marked(s0) == Marked(s);
    ListsChange(s, s0);
    ListPropagated(s0, l1, busy, c);
    var s2 := PropagateList(s0, l1);
    AsideAfter(s0, s2, l2, busy, busy - Elems(l1));
    AsideAfter(s0, s2, l3, busy, busy - Elems(l1));
    ListPropagated(s2, l2, busy - Elems(l1), c);
    var s3 := PropagateList(s2, l2);
    AsideAfter(s2, s3, l3, busy - Elems(l1), busy - Elems(l1) - Elems(l2));
    ListPropagated(s3, l3, busy - Elems(l1) - Elems(l2), c);
    assert busy - Elems(l1) - Elems(l2) - Elems(l3) == {};
    ChangesTrans(s, s0, s2);
    ChangesTrans(s, s2, s3);
    ChangesTrans(s, s3, PropagateList(s3, l3));
  }

  // ----- the fixed point -----

  ghost predicate AllSettled(s: State, l: seq<Ref>) {
    forall r :: r in l ==> SettledTable(s, r)
  }

  lemma SettledTableStays(s: State, s': State, r: Ref)
    requires Visits(s, s') && OnlyStrings(s, s') && SettledTable(s, r)
    ensures SettledTable(s', r)
  {
    EntriesQuiet(s, s', r);
    forall j | 0 <= j < |s'.heap[r].hash|
      ensures Settled(s', s'.heap[r].hash[j])
    {
      assert QuietEntry(s.heap[r].hash[j], s'.heap[r].hash[j]);
      EntrySettledStays(s, s', s.heap[r].hash[j]);
    }
  }

  lemma EntrySettledStays(s: State, s': State, e: Entry)
    requires Visits(s, s') && OnlyStrings(s, s') && Settled(s, e)
    ensures Settled(s', e)
  {
    VisitsMarked(s, s');
    if e.key.Obj? && e.key.ref in s.heap { assert Quiet(s.heap[e.key.ref], s'.heap[e.key.ref]); }
  }

  lemma EphemeronsLinked(s: State, s': State, r: Ref)
    requires EphemeronLinks(s, s', r) && s.phase == Atomic
    ensures LinksDone(s, s', r)
    ensures forall x :: x in s'.ephemeron ==> x in s.ephemeron || x == r
  {
  }

  /** One table of a round, and what its traversal marks. */
  lemma RoundStep(s: State, w: Ref, rest: set<Ref>, c: set<Ref>)
    requires Tri(s, rest + {w}) && w !in rest && Bounded(s, c) && s.gray == [] && s.phase == Atomic && Visited(s)
    requires EphDone(s, w) && w in s.color && s.color[w] == Gray
    ensures var (s1, marked) := VisitEphemeron(s, w);
            var s2 := if marked then PropagateAll(s1) else s1;
            && Tri(s2, rest) && Bounded(s2, c) && s2.gray == [] && s2.phase == Atomic && Visited(s2)
            && Visits(s, s2) && Holds(s, s2, rest)
            && (!marked ==> OnlyStrings(s, s2) && SettledTable(s2, w) && forall x :: x in s2.ephemeron ==>
                x in s.ephemeron || x == w)
  {
    var (s1, marked) := VisitEphemeron(s, w);
    hide Tri, Bounded, Visits, Visited, VisitEphemeron, SettledTable, OnlyStrings, EphDone, Holds;
    RoundVisit(s, w, rest, c);
    if marked {
      PropagateAllOk(s1, rest, c);
      PropagateAllVisits(s1);
      PropagateAllHolds(s1, rest, c);
      SamePhase(s1, PropagateAll(s1));
      VisitsTrans(s, s1, PropagateAll(s1));
      VisitColors(s, s1);
      HoldsTrans(s, s1, PropagateAll(s1), rest);
    }
  }

  lemma RoundVisit(s: State, w: Ref, rest: set<Ref>, c: set<Ref>)
    requires Tri(s, rest + {w}) && w !in rest && Bounded(s, c) && s.gray == [] && s.phase == Atomic && Visited(s)
    requires EphDone(s, w) && w in s.color && s.color[w] == Gray
    ensures var (s1, marked) := VisitEphemeron(s, w);
            && Tri(s1, rest) && Bounded(s1, c) && s1.phase == Atomic && Visited(s1)
            && Visits(s, s1) && Holds(s, s1, rest)
            && (!marked ==> s1.gray == [] && OnlyStrings(s, s1) && SettledTable(s1, w))
            && (!marked ==> forall x :: x in s1.ephemeron ==> x in s.ephemeron || x == w)
  {
    var (s1, marked) := TraverseEphemeron(s, w);
    EphFacts(s, w);
    assert VisitEphemeron(s, w) == (s1, marked);
    assert w in c by { BoundedMarked(s, c); assert w in Marked(s); }
    hide Tri, Bounded, Visits, Visited, TraverseEphemeron, VisitEphemeron, SettledTable, OnlyStrings, EphDone;
    hide EphemeronLinks, LinksDone;
    TraverseEphemeronOk(s, w, rest, c);
    TraverseEphemeronVisits(s, w);
    EphemeronSteady(s, w);
    EphemeronsLinked(s, s1, w);
    LinksVisited(s, s1, w);
    SamePhase(s, s1);
    RestMarked(s, rest + {w});
    SteadyHolds(s, s1, rest);
  }

  lemma SteadyHolds(s: State, s': State, busy: set<Ref>)
    requires Steady(s, s') && forall x :: x in busy ==> x in s.color && !s.color[x].White?
    ensures Holds(s, s', busy)
  {
  }

  lemma EphFacts(s: State, w: Ref)
    requires EphDone(s, w)
    ensures w in s.heap && s.heap[w].Table? && s.heap[w].mode.WeakKeys? && In(s.heap[w].meta, Marked(s))
  {
  }

  lemma RestMarked(s: State, busy: set<Ref>)
    requires Tri(s, busy)
    ensures forall x :: x in busy ==> x in s.color && !s.color[x].White?
  {
    assert busy <= Marked(s);
  }

  lemma VisitColors(s: State, s': State)
    requires Visits(s, s')
    ensures s'.color.Keys == s.color.Keys
  {
  }

  lemma HoldsTrans(a: State, b: State, c: State, busy: set<Ref>)
    requires Holds(a, b, busy) && Holds(b, c, busy) && b.color.Keys == a.color.Keys
    ensures Holds(a, c, busy)
  {
  }

  lemma {:induction false} RoundOk(s: State, next: seq<Ref>, changed: bool, c: set<Ref>)
    requires Tri(s, Elems(next)) && Bounded(s, c) && Aside(s, next, Elems(next)) && s.gray == [] && s.phase == Atomic
    requires Visited(s)
    requires forall r :: r in next ==> EphDone(s, r)
    requires !changed ==> AllSettled(s, s.ephemeron)
    ensures var (s', changed') := Round(s, next, changed);
            && Tri(s', {}) && Bounded(s', c) && s'.gray == [] && s'.phase == Atomic && Visited(s')
            && (!changed' ==> AllSettled(s', s'.ephemeron))
            && Marked(s) <= Marked(s') && s'.heap.Keys == s.heap.Keys
    decreases |next|
  {
    if next != [] {
      var w, rest := next[0], next[1..];
      assert next == [w] + rest;
      assert Elems(next) == Elems(rest) + {w} by {
        assert forall x :: x in Elems(next) <==> x in next;
        assert forall x :: x in Elems(rest) <==> x in rest;
      }
      assert multiset(next) == multiset{w} + multiset(rest);
      assert w in next && multiset(next)[w] <= 1;
      assert w !in Elems(rest) by { assert multiset(rest)[w] == 0; assert w in Elems(rest) ==> w in rest; }
      RoundStep(s, w, Elems(rest), c);
      var (s1, marked) := VisitEphemeron(s, w);
      var s2 := if marked then PropagateAll(s1) else s1;
      hide Tri, Bounded, Visits, Visited, EphDone, SettledTable, OnlyStrings, VisitEphemeron, PropagateAll, Holds;
      AsideRest(s, s2, next);
      VisitsMarked(s, s2);
      forall r | r in rest
        ensures EphDone(s2, r)
      {
        assert r in next;
        DoneStays(s, s2, r);
      }
      if !changed && !marked {
        forall r | r in s2.ephemeron
          ensures SettledTable(s2, r)
        {
          if r in s.ephemeron { SettledTableStays(s, s2, r); }
        }
      }
      RoundOk(s2, rest, changed || marked, c);
    } else {
      assert Elems(next) == {};
    }
  }

  lemma AsideRest(s: State, s': State, next: seq<Ref>)
    requires next != [] && Aside(s, next, Elems(next)) && Visits(s, s') && Holds(s, s', Elems(next[1..]))
    ensures Aside(s', next[1..], Elems(next[1..]))
  {
    var rest := next[1..];
    assert next == [next[0]] + rest;
    assert multiset(next) == multiset{next[0]} + multiset(rest);
    VisitsMarked(s, s');
    VisitColors(s, s');
    forall x
      ensures multiset(rest)[x] <= 1
      ensures x in rest ==>
          x in Elems(rest) && x in s'.heap && x in s'.color && s'.color[x] == Gray && Listable(s'.heap[x])
    {
      assert multiset(next)[x] <= 1;
      if x in rest {
        assert x in next;
        assert x in Elems(rest);
        assert Quiet(s.heap[x], s'.heap[x]);
      }
    }
  }

  lemma DetachFacts(s: State)
    requires Tri(s, {})
    ensures var s0 := s.(ephemeron := []);
            && Marked(s0) == Marked(s) && WeakOk(s0) && GrayLists(s) == GrayLists(s0) + multiset(s.ephemeron)
            && forall r :: EphDone(s, r) ==> EphDone(s0, r)
  {
    var s0 := s.(ephemeron := []);
    assert Marked(s0) == Marked(s);
    assert WeakOk(s0) by { assert WeakOk(s); }
  }

  lemma DetachEphemerons(s: State, c: set<Ref>)
    requires Tri(s, {}) && Bounded(s, c) && Visited(s)
    ensures var s0 := s.(ephemeron := []);
            && Tri(s0, Elems(s.ephemeron)) && Bounded(s0, c) && Aside(s0, s.ephemeron, Elems(s.ephemeron)) &&
                Visited(s0)
            && Marked(s0) == Marked(s) && forall r :: r in s.ephemeron ==> EphDone(s0, r)
  {
    hide Tri, Bounded, GrayLists, WeakOk, EphDone;
    var s0 := s.(ephemeron := []);
    DetachFacts(s);
    Detach(s, s0, s.ephemeron, {}, c);
    assert {} + Elems(s.ephemeron) == Elems(s.ephemeron);
  }

  /** `convergeephemerons` reaches a fixed point. */
  lemma {:induction false} ConvergeOk(s: State, c: set<Ref>)
    requires Tri(s, {}) && Bounded(s, c) && s.gray == [] && s.phase == Atomic && Visited(s)
    ensures var s' := Converge(s);
            && Tri(s', {}) && Bounded(s', c) && s'.gray == [] && Visited(s') && AllSettled(s', s'.ephemeron)
            && Marked(s) <= Marked(s') && s'.heap.Keys == s.heap.Keys && Changes(s, s')
    decreases |Whites(s)|
  {
    hide Tri, Bounded, Visited, EphDone, Aside, AllSettled, Round, Visits, Changes;
    ListsChange(s, s.(ephemeron := []));
    var s0 := s.(ephemeron := []);
    DetachEphemerons(s, c);
    assert AllSettled(s0, s0.ephemeron) by { NoneSettled(s0); }
    RoundOk(s0, s.ephemeron, false, c);
    RoundVisits(s0, s.ephemeron, false);
    DetachWhites(s);
    var (s1, changed) := Round(s0, s.ephemeron, false);
    VisitsWhites(s0, s1);
    VisitsChanges(s0, s1);
    ChangesTrans(s, s0, s1);
    if changed {
      ConvergeOk(s1, c);
      ChangesTrans(s, s1, Converge(s1));
    }
  }

  lemma NoneSettled(s: State)
    ensures AllSettled(s, [])
  {
  }

  function Strings(h: map<Ref, Object>): set<Ref> {
    set r | r in h && h[r].Str?
  }

  /** What every marking ends with: no gray object is left that has an unvisited reference. */
  ghost predicate Converged(s: State) {
    Tri(s, {}) && s.gray == [] && Visited(s) && AllSettled(s, s.ephemeron)
  }

  lemma GrayListed(s: State, r: Ref)
    requires Tri(s, {}) && s.gray == [] && r in s.heap && r in s.color && s.color[r] == Gray && !s.heap[r].OpenUpval?
    ensures r in s.grayagain || r in s.weak || r in s.allweak || r in s.ephemeron
  {
    assert Waiting(s, {}, r);
    assert GrayLists(s)[r] == 1;
  }

  lemma DoneStrong(s: State, r: Ref, p: set<Ref>)
    requires r in s.heap && Marked(s) <= p && p == Marked(s) + Strings(s.heap)
    ensures AgainDone(s, r) || WeakDone(s, r) || AllWeakDone(s, r) || (EphDone(s, r) && SettledTable(s, r)) ==>
        StrongWithin(s.heap, r, p)
  {
    if AgainDone(s, r) { WithinStrong(s.heap, r, Marked(s), p); }
  }

  lemma WithinStrong(h: map<Ref, Object>, r: Ref, p: set<Ref>, q: set<Ref>)
    requires r in h && Within(h, r, p) && p <= q
    ensures StrongWithin(h, r, q)
  {
  }

  /** The marked objects, with all strings, are closed under the references that keep objects alive. */
  lemma ConvergedClosed(s: State)
    requires Converged(s)
    ensures Closed(s.heap, Marked(s) + Strings(s.heap))
  {
    var p := Marked(s) + Strings(s.heap);
    forall r | r in s.heap
      ensures s.heap[r].Str? ==> r in p
      ensures r in p ==> StrongWithin(s.heap, r, p)
    {
      if r in p && !s.heap[r].Str? {
        assert r in Marked(s);
        if s.color[r] == Black {
          assert BlackOk(s, r);
          WithinStrong(s.heap, r, Marked(s), p);
        } else if s.heap[r].OpenUpval? {
          assert OpensOk(s, {});
          WithinStrong(s.heap, r, Marked(s), p);
        } else {
          GrayListed(s, r);
          hide Tri;
          DoneStrong(s, r, p);
        }
      }
    }
  }

  /** The marked objects are the least closed set above any closed bound: with a bound `c` that is
      closed and contains what had to be marked, they lie between the two. */
  lemma LeastClosed(s: State, c: set<Ref>)
    requires Converged(s) && Bounded(s, c)
    ensures Closed(s.heap, Marked(s) + Strings(s.heap)) && Marked(s) + Strings(s.heap) <= c
  {
    ConvergedClosed(s);
  }
}

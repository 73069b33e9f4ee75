/** `propagatemark` keeps the tricolour invariant, and in the atomic phase leaves every object it visits done. */
module Propagation {
  import opened CollectorState
  import opened Tricolor
  import opened Traversal
  import opened Visiting

  // ----- done in the atomic phase -----

  /** All references are marked. */
  predicate AgainDone(s: State, r: Ref) {
    r in s.heap && (s.heap[r].Thread? || s.heap[r].Table?) && Within(s.heap, r, Marked(s))
  }

  /** Only values may be unmarked. */
  predicate WeakDone(s: State, r: Ref) {
    && r in s.heap && s.heap[r].Table? && s.heap[r].mode.WeakValues?
    && In(s.heap[r].meta, Marked(s)) && KeysIn(s.heap[r].hash, Marked(s))
  }

  predicate EmptyKeysIn(es: seq<Entry>, p: set<Ref>) {
    forall i :: 0 <= i < |es| && es[i].val == Nil ==> In(es[i].key, p)
  }

  predicate ValuesIn(es: seq<Entry>, p: set<Ref>) {
    forall i :: 0 <= i < |es| ==> In(es[i].val, p)
  }

  /** Only entries of the hash part may be unmarked. */
  predicate EphDone(s: State, r: Ref) {
    && r in s.heap && s.heap[r].Table? && s.heap[r].mode.WeakKeys?
    && In(s.heap[r].meta, Marked(s)) && AllIn(s.heap[r].arr, Marked(s)) && EmptyKeysIn(s.heap[r].hash, Marked(s))
  }

  predicate AllWeakDone(s: State, r: Ref) {
    && r in s.heap && s.heap[r].Table? && In(s.heap[r].meta, Marked(s))
    && (s.heap[r].mode.AllWeak?
        || (EphDone(s, r) && ValuesIn(s.heap[r].hash, Marked(s))))
  }

  ghost predicate Visited(s: State) {
    && (forall r :: r in s.grayagain ==> AgainDone(s, r))
    && (forall r :: r in s.weak ==> WeakDone(s, r))
    && (forall r :: r in s.ephemeron ==> EphDone(s, r))
    && (forall r :: r in s.allweak ==> AllWeakDone(s, r))
  }

  lemma DoneStays(s: State, s': State, r: Ref)
    requires Visits(s, s')
    ensures AgainDone(s, r) ==> AgainDone(s', r)
    ensures WeakDone(s, r) ==> WeakDone(s', r)
    ensures EphDone(s, r) ==> EphDone(s', r)
    ensures AllWeakDone(s, r) ==> AllWeakDone(s', r)
  {
    VisitsMarked(s, s');
    if r in s.heap {
      assert Quiet(s.heap[r], s'.heap[r]);
      assert QuietHeap(s.heap, s'.heap);
      hide Visits, Marked, QuietHeap;
      if Within(s.heap, r, Marked(s)) {
        QuietThin(s.heap, s'.heap);
        ThinWithin(s.heap, s'.heap, r, Marked(s));
        WithinMono(s'.heap, r, Marked(s), Marked(s'));
      }
    }
  }

  lemma VisitedNext(s: State, s': State)
    requires Visited(s) && Visits(s, s')
    requires forall r :: r in s'.grayagain ==> r in s.grayagain || AgainDone(s', r)
    requires forall r :: r in s'.weak ==> r in s.weak || WeakDone(s', r)
    requires forall r :: r in s'.ephemeron ==> r in s.ephemeron || EphDone(s', r)
    requires forall r :: r in s'.allweak ==> r in s.allweak || AllWeakDone(s', r)
    ensures Visited(s')
  {
    hide Visits, AgainDone, WeakDone, EphDone, AllWeakDone;
    forall r
      ensures AgainDone(s, r) ==> AgainDone(s', r)
      ensures WeakDone(s, r) ==> WeakDone(s', r)
      ensures EphDone(s, r) ==> EphDone(s', r)
      ensures AllWeakDone(s, r) ==> AllWeakDone(s', r)
    {
      DoneStays(s, s', r);
    }
  }

  // ----- linking a visited table -----

  lemma LinkOk(s: State, s': State, r: Ref, busy: set<Ref>, c: set<Ref>)
    requires Tri(s, busy + {r}) && r !in busy && Bounded(s, c)
    requires r in s.heap && s.color[r] == Gray && Listable(s.heap[r])
    requires s' == s.(grayagain := s'.grayagain, weak := s'.weak, allweak := s'.allweak, ephemeron := s'.ephemeron)
    requires GrayLists(s') == GrayLists(s) + multiset{r}
    requires WeakOk(s')
    ensures Tri(s', busy) && Bounded(s', c)
  {
    hide BlackOk, Closed, GrayLists, WeakOk;
    assert Marked(s') == Marked(s);
    WaitingMore(s, s', r, busy);
    assert NoDangling(s') by { DanglingSame(s, s'); }
    BlacksStay(s, s', busy + {r}, busy);
    OpensStay(s, s', busy + {r}, busy);
  }

  lemma LinkTable(s: State, r: Ref, busy: set<Ref>, c: set<Ref>)
    requires Tri(s, busy + {r}) && r !in busy && Bounded(s, c)
    requires r in s.heap && s.color[r] == Gray && s.heap[r].Table?
    ensures Tri(LinkAgain(s, r), busy) && Bounded(LinkAgain(s, r), c)
    ensures Tri(LinkWeak(s, r), busy) && Bounded(LinkWeak(s, r), c)
    ensures Tri(LinkEphemeron(s, r), busy) && Bounded(LinkEphemeron(s, r), c)
    ensures In(s.heap[r].meta, Marked(s)) ==> Tri(LinkAllWeak(s, r), busy) && Bounded(LinkAllWeak(s, r), c)
  {
    GrayListsPush(s, r);
    WeakOkPush(s, r) by { TriWeak(s, busy + {r}); }
    hide Tri, Bounded, GrayLists, WeakOk;
    LinkOk(s, LinkAgain(s, r), r, busy, c);
    LinkOk(s, LinkWeak(s, r), r, busy, c);
    LinkOk(s, LinkEphemeron(s, r), r, busy, c);
    if In(s.heap[r].meta, Marked(s)) { LinkOk(s, LinkAllWeak(s, r), r, busy, c); }
  }

  lemma TriWeak(s: State, busy: set<Ref>)
    requires Tri(s, busy)
    ensures WeakOk(s)
  {
  }

  lemma WeakOkPush(s: State, r: Ref)
    requires WeakOk(s) && r in s.heap && s.heap[r].Table?
    ensures WeakOk(LinkAgain(s, r)) && WeakOk(LinkWeak(s, r)) && WeakOk(LinkEphemeron(s, r))
    ensures In(s.heap[r].meta, Marked(s)) ==> WeakOk(LinkAllWeak(s, r))
  {
    assert Marked(LinkAllWeak(s, r)) == Marked(s) == Marked(LinkWeak(s, r)) == Marked(LinkAgain(s, r)) ==
        Marked(LinkEphemeron(s, r));
  }

  lemma LinkThread(s: State, r: Ref, busy: set<Ref>, c: set<Ref>)
    requires Tri(s, busy + {r}) && r !in busy && Bounded(s, c)
    requires r in s.heap && s.color[r] == Gray && s.heap[r].Thread?
    ensures Tri(LinkAgain(s, r), busy) && Bounded(LinkAgain(s, r), c)
  {
    hide Bounded, GrayLists, ListsOk, BlacksOk, OpensOk, NoDangling;
    GrayListsPush(s, r);
    assert Marked(LinkAgain(s, r)) == Marked(s);
    assert WeakOk(s);
    hide Tri;
    LinkOk(s, LinkAgain(s, r), r, busy, c);
  }

  /** While an object is being visited it may be gray or black. */
  lemma BusyColor(s: State, r: Ref, color: Color, busy: set<Ref>, c: set<Ref>)
    requires Tri(s, busy) && r in busy && Bounded(s, c) && !color.White?
    requires r in s.heap && (s.heap[r].OpenUpval? ==> color == Gray)
    ensures Tri(Paint(s, r, color), busy) && Bounded(Paint(s, r, color), c) && Marked(Paint(s, r, color)) == Marked(s)
  {
    hide BlackOk, Closed, GrayLists, WeakOk;
    var s1 := Paint(s, r, color);
    assert Marked(s1) == Marked(s);
    assert NoDangling(s1) by { DanglingSame(s, s1); }
    BlacksStay(s, s1, busy, busy);
    OpensStay(s, s1, busy, busy);
    WeakStays(s, s1);
    GrayListsSame(s, s1);
    assert forall x :: Waiting(s1, busy, x) == Waiting(s, busy, x);
  }

  /** `black2gray` on an object being visited. */
  lemma RegrayOk(s: State, r: Ref, busy: set<Ref>, c: set<Ref>)
    requires Tri(s, busy) && r in busy && Bounded(s, c) && r in s.heap && r in s.color
    ensures Tri(Regray(s, r), busy) && Bounded(Regray(s, r), c) && Marked(Regray(s, r)) == Marked(s)
  {
    hide Tri, Bounded;
    BusyColor(s, r, Gray, busy, c);
  }

  /** A visited object that is black is done. */
  lemma DoneBlack(s: State, r: Ref, busy: set<Ref>, c: set<Ref>)
    requires Tri(s, busy + {r}) && r !in busy && Bounded(s, c)
    requires r in s.heap && s.color[r] == Black && BlackOk(s, r)
    ensures Tri(s, busy)
  {
    assert Blacken(s, r) == s;
    Finish(s, r, busy, c);
  }

  // ----- colours of what is visited -----

  /** Marking leaves the colours of marked objects alone. */
  ghost predicate Steady(s: State, s': State) {
    forall x :: x in s.color && !s.color[x].White? ==> x in s'.color && s'.color[x] == s.color[x]
  }

  lemma {:induction false} MarkAllSteady(s: State, vs: seq<Value>)
    ensures Steady(s, MarkAll(s, vs))
    decreases |vs|
  {
    hide Visits;
    if vs != [] {
      MarkValueMarks(s, vs[0]);
      MarkAllSteady(MarkValue(s, vs[0]), vs[1..]);
    }
  }

  lemma StrongEntrySteady(s: State, r: Ref, i: nat)
    ensures Steady(s, StrongEntry(s, r, i))
  {
    var e := EntryAt(s, r, i);
    MarkValueMarks(s, e.key);
    MarkValueMarks(MarkValue(s, e.key), e.val);
  }

  lemma {:induction false} StrongEntriesSteady(s: State, r: Ref, i: nat, n: nat)
    ensures Steady(s, StrongEntries(s, r, i, n))
    decreases n - i
  {
    if i < n {
      StrongEntrySteady(s, r, i);
      hide StrongEntry;
      StrongEntriesSteady(StrongEntry(s, r, i), r, i + 1, n);
    }
  }

  lemma WeakValueEntrySteady(s: State, r: Ref, i: nat, clears: bool)
    ensures Steady(s, WeakValueEntry(s, r, i, clears).0)
  {
    var e := EntryAt(s, r, i);
    MarkValueMarks(s, e.key);
    MarkValueMarks(MarkValue(s, e.key), e.val);
  }

  lemma {:induction false} WeakValueEntriesSteady(s: State, r: Ref, i: nat, n: nat, clears: bool)
    ensures Steady(s, WeakValueEntries(s, r, i, n, clears).0)
    decreases n - i
  {
    if i < n {
      WeakValueEntrySteady(s, r, i, clears);
      hide WeakValueEntry;
      var (s1, c1) := WeakValueEntry(s, r, i, clears);
      WeakValueEntriesSteady(s1, r, i + 1, n, c1);
    }
  }

  lemma EphemeronEntrySteady(s: State, r: Ref, i: nat, f: Found)
    ensures Steady(s, EphemeronEntry(s, r, i, f).0)
  {
    var e := EntryAt(s, r, i);
    MarkValueMarks(s, e.key);
    var s1 := Cleared(s, e.key).0;
    MarkValueMarks(s1, e.val);
  }

  lemma {:induction false} EphemeronEntriesSteady(s: State, r: Ref, i: nat, n: nat, f: Found)
    ensures Steady(s, EphemeronEntries(s, r, i, n, f).0)
    decreases n - i
  {
    if i < n {
      EphemeronEntrySteady(s, r, i, f);
      hide EphemeronEntry;
      var (s1, f1) := EphemeronEntry(s, r, i, f);
      EphemeronEntriesSteady(s1, r, i + 1, n, f1);
    }
  }

  // ----- visits of one object -----

  lemma TraverseStrongOk(s: State, r: Ref, busy: set<Ref>, c: set<Ref>)
    requires Tri(s, busy + {r}) && r !in busy && Bounded(s, c)
    requires r in s.heap && s.color[r] == Black && s.heap[r].Table? && s.heap[r].mode.Strong?
    requires In(s.heap[r].meta, Marked(s)) && r in c
    ensures Tri(TraverseStrong(s, r), busy) && Bounded(TraverseStrong(s, r), c)
  {
    var o := s.heap[r];
    var s1 := MarkAll(s, o.arr);
    var s' := StrongEntries(s1, r, 0, |o.hash|);
    assert s' == TraverseStrong(s, r);
    EntryBounds(s, r, busy + {r}, c);
    hide Tri, Bounded, Visits, MarkAll, StrongEntries, TraverseStrong, BlackOk, Steady;
    MarkAllOk(s, o.arr, busy + {r}, c);
    MarkAllVisits(s, o.arr);
    MarkAllSteady(s, o.arr);
    VisitsMarked(s, s1);
    StrongEntriesOk(s1, r, 0, |o.hash|, busy + {r}, c);
    StrongEntriesVisit(s1, r, 0, |o.hash|);
    StrongEntriesSteady(s1, r, 0, |o.hash|);
    EntriesQuiet(s1, s', r);
    SteadyTwice(s, s1, s', r);
    BlackTable(s', r);
    DoneBlack(s', r, busy, c);
  }

  lemma SteadyTwice(a: State, b: State, c: State, r: Ref)
    requires Steady(a, b) && Steady(b, c) && r in a.color && !a.color[r].White?
    ensures r in b.color && b.color[r] == a.color[r]
    ensures r in c.color && c.color[r] == a.color[r]
  {
  }

  lemma BlackTable(s: State, r: Ref)
    requires r in s.heap && s.heap[r].Table? && In(s.heap[r].meta, Marked(s)) && AllIn(s.heap[r].arr, Marked(s))
    requires forall j :: 0 <= j < |s.heap[r].hash| ==> EntryDone(s.heap[r].hash[j], Marked(s))
    ensures BlackOk(s, r)
  {
  }

  lemma TraverseWeakValueOk(s: State, r: Ref, busy: set<Ref>, c: set<Ref>)
    requires Tri(s, busy + {r}) && r !in busy && Bounded(s, c)
    requires r in s.heap && s.color[r] == Gray && s.heap[r].Table? && s.heap[r].mode.WeakValues?
    requires In(s.heap[r].meta, Marked(s)) && r in c
    ensures var s' := TraverseWeakValue(s, r);
            && Tri(s', busy) && Bounded(s', c) && s'.allweak == s.allweak && s'.ephemeron == s.ephemeron
            && ((s'.weak == [r] + s.weak && s'.grayagain == s.grayagain && WeakDone(s', r))
                || (s'.weak == s.weak && s'.grayagain == [r] + s.grayagain && AgainDone(s', r)))
  {
    var o := s.heap[r];
    var (s1, clears) := WeakValueEntries(s, r, 0, |o.hash|, o.arr != []);
    EntryBounds(s, r, busy + {r}, c);
    hide Tri, Bounded, Visits, WeakValueEntries;
    WeakValueEntriesOk(s, r, 0, |o.hash|, o.arr != [], busy + {r}, c);
    WeakValueEntriesVisit(s, r, 0, |o.hash|, o.arr != []);
    WeakValueEntriesSteady(s, r, 0, |o.hash|, o.arr != []);
    EntriesQuiet(s, s1, r);
    LinkTable(s1, r, busy, c);
    WeakValueDone(s1, r, clears);
  }

  lemma WeakValueDone(s: State, r: Ref, clears: bool)
    requires r in s.heap && s.heap[r].Table? && s.heap[r].mode.WeakValues? && In(s.heap[r].meta, Marked(s))
    requires !clears ==> s.heap[r].arr == []
    requires forall j :: 0 <= j < |s.heap[r].hash| ==> ValueEntryDone(s.heap[r].hash[j], Marked(s), clears)
    ensures WeakDone(LinkWeak(s, r), r)
    ensures !clears ==> AgainDone(LinkAgain(s, r), r)
  {
    assert Marked(LinkWeak(s, r)) == Marked(s) == Marked(LinkAgain(s, r));
  }

  lemma TraverseEphemeronOk(s: State, r: Ref, busy: set<Ref>, c: set<Ref>)
    requires Tri(s, busy + {r}) && r !in busy && Bounded(s, c)
    requires r in s.heap && s.color[r] == Gray && s.heap[r].Table? && s.heap[r].mode.WeakKeys?
    requires In(s.heap[r].meta, Marked(s)) && r in c
    ensures var (s', marked) := TraverseEphemeron(s, r);
            && Tri(s', busy) && Bounded(s', c) && EphemeronLinks(s, s', r)
            && (!marked ==> OnlyStrings(s, s') && SettledTable(s', r))
  {
    var o := s.heap[r];
    var f0 := Found(false, false, false);
    var (s1, f1) := EphemeronArray(s, o.arr, f0);
    var (s2, f) := EphemeronEntries(s1, r, 0, |o.hash|, f1);
    hide Tri, Bounded, Visits, EphemeronArray, EphemeronEntries, OnlyStrings, EphemeronDone, EphemeronLinks;
    hide SettledTable, EphemeronLink;
    EphemeronFound(s, r, busy, c);
    EphemeronLinkOk(s, s2, r, f, busy, c);
  }

  lemma EphemeronLinkOk(s: State, s2: State, r: Ref, f: Found, busy: set<Ref>, c: set<Ref>)
    requires Tri(s2, busy + {r}) && r !in busy && Bounded(s2, c) && SameLists(s, s2) && s2.phase == s.phase
    requires r in s2.heap && s2.heap[r].Table? && s2.heap[r].mode.WeakKeys? && r in s2.color && s2.color[r] == Gray
    requires In(s2.heap[r].meta, Marked(s2)) && AllIn(s2.heap[r].arr, Marked(s2))
    requires forall j :: 0 <= j < |s2.heap[r].hash| ==> EphemeronDone(s2, s2.heap[r].hash[j], f)
    requires !f.marked ==> OnlyStrings(s, s2)
    ensures var s' := EphemeronLink(s2, r, f);
            && Tri(s', busy) && Bounded(s', c) && EphemeronLinks(s, s', r)
            && (!f.marked ==> OnlyStrings(s, s') && SettledTable(s', r))
  {
    hide Tri, Bounded, OnlyStrings, EphemeronDone, EphDone, AgainDone, AllWeakDone, SettledTable;
    LinkTable(s2, r, busy, c);
    EphemeronLinked(s2, r, f);
    if !f.marked { OnlyStringsSame(s, s2, EphemeronLink(s2, r, f)); }
  }

  /** The two loops of the traversal. */
  lemma EphemeronFound(s: State, r: Ref, busy: set<Ref>, c: set<Ref>)
    requires Tri(s, busy + {r}) && r !in busy && Bounded(s, c)
    requires r in s.heap && s.color[r] == Gray && s.heap[r].Table? && s.heap[r].mode.WeakKeys?
    requires In(s.heap[r].meta, Marked(s)) && r in c
    ensures var (s1, f1) := EphemeronArray(s, s.heap[r].arr, Found(false, false, false));
            var (s2, f) := EphemeronEntries(s1, r, 0, |s.heap[r].hash|, f1);
            && Tri(s2, busy + {r}) && Bounded(s2, c) && SameLists(s, s2) && s2.phase == s.phase
            && r in s2.heap && s2.heap[r].Table? && s2.heap[r].mode.WeakKeys? && r in s2.color && s2.color[r] == Gray
            && In(s2.heap[r].meta, Marked(s2)) && AllIn(s2.heap[r].arr, Marked(s2))
            && (forall j :: 0 <= j < |s2.heap[r].hash| ==> EphemeronDone(s2, s2.heap[r].hash[j], f))
            && (!f.marked ==> OnlyStrings(s, s2))
  {
    var o := s.heap[r];
    var f0 := Found(false, false, false);
    var (s1, f1) := EphemeronArray(s, o.arr, f0);
    var (s2, f) := EphemeronEntries(s1, r, 0, |o.hash|, f1);
    EntryBounds(s, r, busy + {r}, c);
    hide Tri, Bounded, Visits, EphemeronArray, EphemeronEntries, Steady, OnlyStrings, EphemeronDone, StrongWithin;
    EphemeronArrayMarks(s, o.arr, f0);
    assert AllIn(o.arr, c) by { StrongArray(s, r, c); }
    MarkAllOk(s, o.arr, busy + {r}, c);
    EphemeronArrayVisits(s, o.arr, f0);
    MarkAllSteady(s, o.arr);
    VisitsMarked(s, s1);
    EphemeronEntriesOk(s1, r, 0, |o.hash|, f1, busy + {r}, c);
    EphemeronEntriesVisit(s1, r, 0, |o.hash|, f1);
    EphemeronEntriesSteady(s1, r, 0, |o.hash|, f1);
    EntriesQuiet(s1, s2, r);
    SteadyTwice(s, s1, s2, r);
    SamePhase(s, s1);
    SamePhase(s1, s2);
    if !f.marked { assert s1 == s; }
  }

  lemma StrongArray(s: State, r: Ref, c: set<Ref>)
    requires r in s.heap && s.heap[r].Table? && s.heap[r].mode.WeakKeys? && StrongWithin(s.heap, r, c)
    ensures AllIn(s.heap[r].arr, c)
  {
  }

  lemma OnlyStringsSame(s: State, s1: State, s2: State)
    requires OnlyStrings(s, s1) && s2.heap == s1.heap && s2.color == s1.color
    ensures OnlyStrings(s, s2)
  {
  }

  ghost predicate EphemeronLinks(s: State, s': State, r: Ref) {
    && s'.weak == s.weak && r in s'.heap && s'.heap[r].Table? && s'.heap[r].mode.WeakKeys?
    && (|| (s'.ephemeron == [r] + s.ephemeron && s'.grayagain == s.grayagain && s'.allweak == s.allweak &&
        EphDone(s', r))
        || (s.phase == Atomic && s'.ephemeron == s.ephemeron && s'.grayagain == [r] + s.grayagain &&
            s'.allweak == s.allweak && AgainDone(s', r))
        || (s.phase == Atomic && s'.ephemeron == s.ephemeron && s'.grayagain == s.grayagain &&
            s'.allweak == [r] + s.allweak && AllWeakDone(s', r)))
  }

  /** No entry of the table has a marked key and an unmarked value. */
  ghost predicate SettledTable(s: State, r: Ref) {
    r in s.heap && s.heap[r].Table? && forall j :: 0 <= j < |s.heap[r].hash| ==> Settled(s, s.heap[r].hash[j])
  }

  lemma SamePhase(s: State, s': State)
    requires Visits(s, s')
    ensures s'.phase == s.phase
  {
  }

  lemma EphemeronLinked(s: State, r: Ref, f: Found)
    requires r in s.heap && s.heap[r].Table? && s.heap[r].mode.WeakKeys? && In(s.heap[r].meta, Marked(s))
    requires AllIn(s.heap[r].arr, Marked(s))
    requires forall j :: 0 <= j < |s.heap[r].hash| ==> EphemeronDone(s, s.heap[r].hash[j], f)
    ensures EphDone(LinkEphemeron(s, r), r)
    ensures !f.clears ==> AgainDone(LinkAgain(s, r), r)
    ensures !f.prop ==> AllWeakDone(LinkAllWeak(s, r), r)
    ensures !f.marked ==>
        SettledTable(LinkEphemeron(s, r), r) && SettledTable(LinkAllWeak(s, r), r) && SettledTable(LinkAgain(s, r), r)
  {
    assert Marked(LinkEphemeron(s, r)) == Marked(s) == Marked(LinkAgain(s, r));
    assert Marked(LinkAllWeak(s, r)) == Marked(s);
  }

  lemma TraverseProtoOk(s: State, r: Ref, busy: set<Ref>, c: set<Ref>)
    requires Tri(s, busy + {r}) && r !in busy && Bounded(s, c)
    requires r in s.heap && s.color[r] == Black && s.heap[r].Proto? && r in c
    ensures Tri(TraverseProto(s, r), busy) && Bounded(TraverseProto(s, r), c)
  {
    var p := s.heap[r];
    var s1 := if IsWhite(s, p.cache) then s.(heap := s.heap[r := p.(cache := Nil)]) else s;
    ProtoRefs(s, r, busy + {r}, c);
    CacheCleared(s, r, busy + {r});
    hide Tri, Bounded, Visits, QuietHeap, Steady, Within, StrongWithin;
    QuietTri(s, s1.heap, busy + {r}, c);
    MarkAllOk(s1, p.refs, busy + {r}, c);
    MarkAllVisits(s1, p.refs);
    MarkAllSteady(s1, p.refs);
    SteadyColor(s1, MarkAll(s1, p.refs), r);
    VisitsMarked(s1, MarkAll(s1, p.refs));
    BlackProto(MarkAll(s1, p.refs), r);
    DoneBlack(MarkAll(s1, p.refs), r, busy, c);
  }

  lemma ProtoRefs(s: State, r: Ref, busy: set<Ref>, c: set<Ref>)
    requires Tri(s, busy) && Bounded(s, c) && r in s.heap && s.heap[r].Proto? && r in c
    ensures AllIn(s.heap[r].refs, c) && AllIn(s.heap[r].refs, s.heap.Keys)
  {
    assert Within(s.heap, r, s.heap.Keys) && StrongWithin(s.heap, r, c);
  }

  lemma CacheCleared(s: State, r: Ref, busy: set<Ref>)
    requires Tri(s, busy) && r in s.heap && s.heap[r].Proto?
    ensures var p := s.heap[r];
            var s1 := if IsWhite(s, p.cache) then s.(heap := s.heap[r := p.(cache := Nil)]) else s;
            && QuietHeap(s.heap, s1.heap) && s1.heap[r] == p.(cache := s1.heap[r].cache)
            && In(s1.heap[r].cache, Marked(s)) && s1.heap.Keys == s.heap.Keys && s1 == s.(heap := s1.heap)
  {
    hide Tri;
    CacheKnown(s, r, busy);
  }

  lemma CacheKnown(s: State, r: Ref, busy: set<Ref>)
    requires Tri(s, busy) && r in s.heap && s.heap[r].Proto?
    ensures In(s.heap[r].cache, s.heap.Keys) && s.color.Keys == s.heap.Keys
  {
    assert Within(s.heap, r, s.heap.Keys);
  }

  lemma SteadyColor(s: State, s': State, r: Ref)
    requires Steady(s, s') && r in s.color && !s.color[r].White?
    ensures r in s'.color && s'.color[r] == s.color[r]
  {
  }

  lemma BlackProto(s: State, r: Ref)
    requires r in s.heap && s.heap[r].Proto? && AllIn(s.heap[r].refs, Marked(s)) && In(s.heap[r].cache, Marked(s))
    ensures BlackOk(s, r)
  {
  }

  lemma ClosureOk(s: State, r: Ref, busy: set<Ref>, c: set<Ref>)
    requires Tri(s, busy + {r}) && r !in busy && Bounded(s, c)
    requires r in s.heap && s.color[r] == Black && s.heap[r].Closure? && r in c
    ensures Tri(MarkAll(s, s.heap[r].refs), busy) && Bounded(MarkAll(s, s.heap[r].refs), c)
  {
    var s' := MarkAll(s, s.heap[r].refs);
    assert Within(s.heap, r, s.heap.Keys) && StrongWithin(s.heap, r, c);
    hide Tri, Bounded, Visits;
    MarkAllOk(s, s.heap[r].refs, busy + {r}, c);
    MarkAllVisits(s, s.heap[r].refs);
    MarkAllSteady(s, s.heap[r].refs);
    DoneBlack(s', r, busy, c);
  }

  lemma StackBounds(s: State, r: Ref, busy: set<Ref>, c: set<Ref>)
    requires Tri(s, busy) && Bounded(s, c) && r in s.heap && s.heap[r].Thread? && r in c
    ensures AllIn(s.heap[r].stack[..Used(s.heap[r])], s.heap.Keys) && AllIn(s.heap[r].stack[..Used(s.heap[r])], c)
  {
    assert Within(s.heap, r, s.heap.Keys);
    assert StrongWithin(s.heap, r, c);
  }

  lemma TraverseStackOk(s: State, r: Ref, busy: set<Ref>, c: set<Ref>)
    requires Tri(s, busy) && Bounded(s, c) && r in s.heap && s.heap[r].Thread? && r in c
    ensures Tri(TraverseStack(s, r), busy) && Bounded(TraverseStack(s, r), c)
    ensures s.phase == Atomic ==> AgainDone(TraverseStack(s, r), r)
  {
    var o := s.heap[r];
    var used := o.stack[..Used(o)];
    var s1 := MarkAll(s, used);
    StackBounds(s, r, busy, c);
    hide Tri, Bounded, Visits, Marked, QuietHeap;
    MarkAllOk(s, used, busy, c);
    MarkAllVisits(s, used);
    ClearAboveQuiet(s1, r);
    QuietTri(s1, ClearAbove(s1, r).heap, busy, c);
    if s.phase == Atomic {
      ThreadAgain(s1, r);
    }
    hide ClearAbove, MarkAll, AgainDone;
  }

  /** A thread whose stack is marked up to its top is done when the rest has been cleared. */
  lemma ThreadAgain(s: State, r: Ref)
    requires r in s.heap && s.heap[r].Thread? && AllIn(s.heap[r].stack[..Used(s.heap[r])], Marked(s))
    ensures AgainDone(ClearAbove(s, r), r)
  {
    ClearAboveQuiet(s, r);
    hide Marked, QuietHeap;
  }

  lemma ClearAboveQuiet(s: State, r: Ref)
    requires r in s.heap && s.heap[r].Thread?
    ensures ClearAbove(s, r) == s.(heap := ClearAbove(s, r).heap) && QuietHeap(s.heap, ClearAbove(s, r).heap)
    ensures Marked(ClearAbove(s, r)) == Marked(s)
    ensures AllIn(s.heap[r].stack[..Used(s.heap[r])], Marked(s)) ==> AllIn(ClearAbove(s, r).heap[r].stack, Marked(s))
  {
    var o, o' := s.heap[r], ClearAbove(s, r).heap[r];
    assert Marked(ClearAbove(s, r)) == Marked(s);
    var n := Used(o);
    assert forall i :: 0 <= i < n ==> o'.stack[i] == o.stack[..n][i];
  }

  // ----- propagatemark -----

  lemma TakeOk(s: State, busy: set<Ref>, c: set<Ref>)
    requires Tri(s, busy) && Bounded(s, c) && s.gray != []
    ensures var r := s.gray[0];
            var s1 := Blacken(s, r).(gray := s.gray[1..]);
            && r in s.heap && r !in busy && s.color[r] == Gray && Listable(s.heap[r]) && r in c
            && Tri(s1, busy + {r}) && Bounded(s1, c) && Marked(s1) == Marked(s) && s1.heap == s.heap &&
                s1.color[r] == Black
            && SameLists(s, s1)
  {
    var r := s.gray[0];
    var s0 := s.(gray := s.gray[1..]);
    Unlist(s, busy, c);
    hide Tri, Bounded;
    BusyColor(s0, r, Black, busy + {r}, c);
    assert Paint(s0, r, Black) == Blacken(s, r).(gray := s.gray[1..]);
  }

  lemma Unlist(s: State, busy: set<Ref>, c: set<Ref>)
    requires Tri(s, busy) && Bounded(s, c) && s.gray != []
    ensures var r := s.gray[0];
            var s0 := s.(gray := s.gray[1..]);
            && r in s.heap && r in s.color && r !in busy && s.color[r] == Gray && Listable(s.heap[r]) && r in c
            && Tri(s0, busy + {r}) && Bounded(s0, c) && Marked(s0) == Marked(s)
  {
    hide BlackOk, Closed, GrayLists, WeakOk, ListsOk;
    var r := s.gray[0];
    var s0 := s.(gray := s.gray[1..]);
    TakeCounts(s, busy);
    assert Marked(s0) == Marked(s);
    assert NoDangling(s0) by { DanglingSame(s, s0); }
    BlacksStay(s, s0, busy, busy + {r});
    OpensStay(s, s0, busy, busy + {r});
    WeakStays(s, s0);
  }

  lemma TakeCounts(s: State, busy: set<Ref>)
    requires s.gray != [] && s.color.Keys == s.heap.Keys && ListsOk(s, busy)
    ensures var r := s.gray[0];
            && r in s.heap && s.color[r] == Gray && r !in busy && Listable(s.heap[r])
            && ListsOk(s.(gray := s.gray[1..]), busy + {r})
  {
    hide GrayLists, Listable;
    var r := s.gray[0];
    var s0 := s.(gray := s.gray[1..]);
    GrayListsTake(s);
    assert GrayLists(s)[r] >= 1 && Waiting(s, busy, r);
    forall x
      ensures GrayLists(s0)[x] == if Waiting(s0, busy + {r}, x) then 1 else 0
      ensures Waiting(s0, busy + {r}, x) ==> Listable(s0.heap[x])
    {
      assert Waiting(s0, busy + {r}, x) == (Waiting(s, busy, x) && x != r);
    }
  }

  lemma GrayListsTake(s: State)
    requires s.gray != []
    ensures GrayLists(s) == GrayLists(s.(gray := s.gray[1..])) + multiset{s.gray[0]}
  {
    assert s.gray == [s.gray[0]] + s.gray[1..];
  }

  /** Every table that a visit of `r` newly lists is `r`, and it is done as the list demands. */
  ghost predicate LinksDone(s: State, s': State, r: Ref) {
    && (s'.grayagain == s.grayagain || (s'.grayagain == [r] + s.grayagain && (s.phase == Atomic ==> AgainDone(s', r))))
    && (s'.weak == s.weak || (s'.weak == [r] + s.weak && WeakDone(s', r)))
    && (s'.ephemeron == s.ephemeron || (s'.ephemeron == [r] + s.ephemeron && EphDone(s', r)))
    && (s'.allweak == s.allweak ||
        (s'.allweak == [r] + s.allweak && AllWeakDone(s', r) && (s.phase == Atomic || s'.heap[r].mode.AllWeak?)))
  }

  lemma TraverseTableOk(s: State, r: Ref, busy: set<Ref>, c: set<Ref>)
    requires Tri(s, busy + {r}) && r !in busy && Bounded(s, c)
    requires r in s.heap && s.color[r] == Black && s.heap[r].Table? && r in c
    ensures Tri(TraverseTable(s, r), busy) && Bounded(TraverseTable(s, r), c)
    ensures LinksDone(s, TraverseTable(s, r), r)
  {
    var o := s.heap[r];
    var s1 := MarkValue(s, o.meta);
    EntryBounds(s, r, busy + {r}, c);
    MarkValueOk(s, o.meta, busy + {r}, c);
    MarksHeap(s, s1);
    assert s1.color[r] == Black;
    assert SameLists(s, s1) && s1.phase == s.phase;
    hide Tri, Bounded, Visits, MarkValue, Marks, TraverseStrong, TraverseWeakValue, TraverseEphemeron;
    hide WeakDone, EphDone, AgainDone, AllWeakDone, Within, StrongWithin, LinksDone;
    if o.mode.Strong? {
      TraverseStrongOk(s1, r, busy, c);
      TraverseStrongVisits(s1, r);
      NoLinks(s, TraverseTable(s, r), r);
    } else {
      RegrayOk(s1, r, busy + {r}, c);
      RegrayColor(s1, r);
      WeakTableOk(Regray(s1, r), r, busy, c);
      LinksFrom(s, Regray(s1, r), TraverseTable(s, r), r);
    }
  }

  lemma NoLinks(s: State, s': State, r: Ref)
    requires SameLists(s, s')
    ensures LinksDone(s, s', r)
  {
  }

  lemma LinksFrom(s: State, s1: State, s': State, r: Ref)
    requires SameLists(s, s1) && s1.phase == s.phase && LinksDone(s1, s', r)
    ensures LinksDone(s, s', r)
  {
  }

  lemma WeakTableOk(s: State, r: Ref, busy: set<Ref>, c: set<Ref>)
    requires Tri(s, busy + {r}) && r !in busy && Bounded(s, c)
    requires r in s.heap && s.color[r] == Gray && s.heap[r].Table? && !s.heap[r].mode.Strong?
    requires In(s.heap[r].meta, Marked(s)) && r in c
    ensures var s' := match s.heap[r].mode
                      case WeakValues => TraverseWeakValue(s, r)
                      case WeakKeys => TraverseEphemeron(s, r).0
                      case AllWeak => LinkAllWeak(s, r);
            Tri(s', busy) && Bounded(s', c) && LinksDone(s, s', r)
  {
    hide Tri, Bounded, Visits, TraverseWeakValue, TraverseEphemeron, WeakDone, EphDone, AgainDone, AllWeakDone;
    match s.heap[r].mode
    case WeakValues => TraverseWeakValueOk(s, r, busy, c);
    case WeakKeys => TraverseEphemeronOk(s, r, busy, c);
    case AllWeak =>
      LinkTable(s, r, busy, c);
      AllWeakLinked(s, r);
  }

  lemma AllWeakLinked(s: State, r: Ref)
    requires r in s.heap && s.heap[r].Table? && s.heap[r].mode.AllWeak? && In(s.heap[r].meta, Marked(s))
    ensures AllWeakDone(LinkAllWeak(s, r), r)
  {
    assert Marked(LinkAllWeak(s, r)) == Marked(s);
  }

  lemma RegrayColor(s: State, r: Ref)
    requires r in s.heap && r in s.color
    ensures Regray(s, r).color[r] == Gray && Regray(s, r).heap == s.heap && SameLists(s, Regray(s, r))
    ensures Regray(s, r).phase == s.phase
  {
  }

  /** One visit keeps the invariant and marks nothing beyond what is needed. */
  lemma PropagateMarkOk(s: State, busy: set<Ref>, c: set<Ref>)
    requires Tri(s, busy) && Bounded(s, c) && s.gray != []
    ensures Tri(PropagateMark(s), busy) && Bounded(PropagateMark(s), c)
    ensures LinksDone(s, PropagateMark(s), s.gray[0])
  {
    var r := s.gray[0];
    var s1 := Blacken(s, r).(gray := s.gray[1..]);
    TakeOk(s, busy, c);
    assert PropagateMark(s) == match s1.heap[r]
                               case Table(_, _, _, _) => TraverseTable(s1, r)
                               case Closure(refs) => MarkAll(s1, refs)
                               case Thread(_, _, _) => TraverseStack(Regray(LinkAgain(s1, r), r), r)
                               case Proto(_, _) => TraverseProto(s1, r)
                               case _ => s1;
    hide Tri, Bounded, Visits, PropagateMark, TraverseTable, TraverseStack, TraverseProto, MarkAll, Blacken;
    match s1.heap[r]
    case Table(_, _, _, _) => TraverseTableOk(s1, r, busy, c);
    case Closure(refs) =>
      ClosureOk(s1, r, busy, c);
      MarkAllVisits(s1, refs);
    case Thread(_, _, _) =>
      RegrayOk(s1, r, busy + {r}, c);
      var s2 := Regray(s1, r);
      RegrayColor(s1, r);
      LinkThread(s2, r, busy, c);
      assert LinkAgain(s2, r) == Regray(LinkAgain(s1, r), r);
      TraverseStackOk(LinkAgain(s2, r), r, busy, c);
      TraverseStackVisits(LinkAgain(s2, r), r);
    case Proto(_, _) =>
      TraverseProtoOk(s1, r, busy, c);
      TraverseProtoVisits(s1, r);
    case _ =>
  }

  lemma LinksVisited(s: State, s': State, r: Ref)
    requires Visited(s) && Visits(s, s') && LinksDone(s, s', r) && s.phase == Atomic
    ensures Visited(s')
  {
    hide Visits, AgainDone, WeakDone, EphDone, AllWeakDone;
    VisitedNext(s, s');
  }

  /** The tables that will not be visited again. */
  ghost predicate AllDone(s: State) {
    forall r :: r in s.allweak ==> AllWeakDone(s, r)
  }

  lemma LinksAllDone(s: State, s': State, r: Ref)
    requires AllDone(s) && Visits(s, s') && LinksDone(s, s', r)
    ensures AllDone(s')
  {
    hide Visits, AgainDone, WeakDone, EphDone, AllWeakDone;
    forall x | x in s'.allweak
      ensures AllWeakDone(s', x)
    {
      DoneStays(s, s', x);
    }
  }

  lemma {:induction false} PropagateAllOk(s: State, busy: set<Ref>, c: set<Ref>)
    requires Tri(s, busy) && Bounded(s, c)
    ensures Tri(PropagateAll(s), busy) && Bounded(PropagateAll(s), c)
    ensures s.phase == Atomic && Visited(s) ==> Visited(PropagateAll(s))
    ensures AllDone(s) ==> AllDone(PropagateAll(s))
    decreases Load(s)
  {
    hide Tri, Bounded, Visits, Visited, AllDone, PropagateMark, LinksDone;
    if s.gray != [] {
      PropagateMarkVisits(s);
      PropagateMarkOk(s, busy, c);
      SamePhase(s, PropagateMark(s));
      if s.phase == Atomic && Visited(s) { LinksVisited(s, PropagateMark(s), s.gray[0]); }
      if AllDone(s) { LinksAllDone(s, PropagateMark(s), s.gray[0]); }
      PropagateAllOk(PropagateMark(s), busy, c);
    }
  }
}

/** Each visit of a gray object keeps the tricolour invariant and marks only what must be marked. */
module Visiting {
  import opened CollectorState
  import opened Tricolor
  import opened Traversal

  // ----- changes that only remove references -----

  predicate ThinEntry(e: Entry, e': Entry) {
    e' == e || (e'.val == Nil && (e'.key == e.key || e'.key == DeadKey))
  }

  predicate Thin(o: Object, o': Object) {
    match o
    case Table(_, _, arr, hash) =>
      && o'.Table? && o' == o.(arr := o'.arr, hash := o'.hash) && |o'.arr| == |arr| && |o'.hash| == |hash|
      && (forall i :: 0 <= i < |arr| ==> o'.arr[i] == arr[i] || o'.arr[i] == Nil)
      && (forall i :: 0 <= i < |hash| ==> ThinEntry(hash[i], o'.hash[i]))
    case Proto(_, _) => o' == o || o' == o.(cache := Nil)
    case Thread(stack, _, _) =>
      && o'.Thread? && o' == o.(stack := o'.stack) && |o'.stack| == |stack|
      && forall i :: 0 <= i < |stack| ==> o'.stack[i] == stack[i] || o'.stack[i] == Nil
    case _ => o' == o
  }

  ghost predicate ThinHeap(h: map<Ref, Object>, h': map<Ref, Object>) {
    h'.Keys == h.Keys && forall r :: r in h ==> Thin(h[r], h'[r])
  }

  lemma QuietThin(h: map<Ref, Object>, h': map<Ref, Object>)
    requires QuietHeap(h, h')
    ensures ThinHeap(h, h')
  {
    forall r | r in h
      ensures Thin(h[r], h'[r])
    {
      assert Quiet(h[r], h'[r]);
    }
  }

  lemma ThinWithin(h: map<Ref, Object>, h': map<Ref, Object>, r: Ref, p: set<Ref>)
    requires ThinHeap(h, h') && r in h && Within(h, r, p)
    ensures Within(h', r, p)
  {
    assert Thin(h[r], h'[r]);
    if h[r].OpenUpval? && h[r].thread in h {
      assert Thin(h[h[r].thread], h'[h[r].thread]);
    }
  }

  lemma ThinStrong(h: map<Ref, Object>, h': map<Ref, Object>, r: Ref, p: set<Ref>)
    requires ThinHeap(h, h') && r in h && StrongWithin(h, r, p)
    ensures StrongWithin(h', r, p)
  {
    assert Thin(h[r], h'[r]);
    if h[r].OpenUpval? && h[r].thread in h {
      assert Thin(h[h[r].thread], h'[h[r].thread]);
    }
    if h[r].Table? && h[r].mode.WeakKeys? {
      var es, es' := h[r].hash, h'[r].hash;
      forall i | 0 <= i < |es'| && es'[i].val != Nil && Keeps(h', es'[i].key, p)
        ensures In(es'[i].val, p)
      {
        assert ThinEntry(es[i], es'[i]);
        if es[i].key.Obj? && es[i].key.ref in h { assert Thin(h[es[i].key.ref], h'[es[i].key.ref]); }
        if es[i].key.Obj? && es[i].key.ref in h' { assert es[i].key.ref in h; }
      }
    }
  }

  lemma ThinClosed(h: map<Ref, Object>, h': map<Ref, Object>, c: set<Ref>)
    requires ThinHeap(h, h') && Closed(h, c)
    ensures Closed(h', c)
  {
    hide StrongWithin;
    forall r | r in h'
      ensures h'[r].Str? ==> r in c
      ensures r in c ==> StrongWithin(h', r, c)
    {
      assert Thin(h[r], h'[r]);
      if r in c { ThinStrong(h, h', r, c); }
    }
  }

  lemma ThinBlack(s: State, s': State, r: Ref)
    requires r in s.heap && BlackOk(s, r) && ThinHeap(s.heap, s'.heap) && Marked(s) <= Marked(s')
    ensures BlackOk(s', r)
  {
    ThinWithin(s.heap, s'.heap, r, Marked(s));
    WithinMono(s'.heap, r, Marked(s), Marked(s'));
    assert Thin(s.heap[r], s'.heap[r]);
  }

  lemma ThinTri(s: State, h: map<Ref, Object>, busy: set<Ref>, c: set<Ref>)
    requires Tri(s, busy) && Bounded(s, c) && ThinHeap(s.heap, h)
    ensures Tri(s.(heap := h), busy) && Bounded(s.(heap := h), c) && Marked(s.(heap := h)) == Marked(s)
  {
    hide Closed, Within, BlackOk, GrayLists;
    var s' := s.(heap := h);
    assert Marked(s') == Marked(s);
    ThinClosed(s.heap, h, c);
    assert NoDangling(s') by {
      forall r | r in h ensures Within(h, r, h.Keys) { ThinWithin(s.heap, h, r, h.Keys); }
    }
    assert BlacksOk(s', busy) by {
      forall r | r in h && r in s'.color && s'.color[r] == Black && r !in busy
        ensures BlackOk(s', r)
      {
        ThinBlack(s, s', r);
      }
    }
    assert OpensOk(s', busy) by { ThinOpens(s, s', busy); }
    assert WeakOk(s') by { ThinWeak(s, s'); }
    assert ListsOk(s', busy) by { ThinLists(s, s', busy); }
  }

  lemma QuietTri(s: State, h: map<Ref, Object>, busy: set<Ref>, c: set<Ref>)
    requires Tri(s, busy) && Bounded(s, c) && QuietHeap(s.heap, h)
    ensures Tri(s.(heap := h), busy) && Bounded(s.(heap := h), c) && Marked(s.(heap := h)) == Marked(s)
  {
    hide Tri, Bounded;
    QuietThin(s.heap, h);
    ThinTri(s, h, busy, c);
  }

  lemma ThinOpens(s: State, s': State, busy: set<Ref>)
    requires OpensOk(s, busy) && ThinHeap(s.heap, s'.heap) && s'.color == s.color && Marked(s') == Marked(s)
    ensures OpensOk(s', busy)
  {
    forall r | r in s'.heap && r in s'.color && s'.heap[r].OpenUpval? && !s'.color[r].White? && r !in busy
      ensures In(Slot(s'.heap, s'.heap[r].thread, s'.heap[r].idx), Marked(s'))
    {
      assert Thin(s.heap[r], s'.heap[r]);
      if s.heap[r].thread in s.heap { assert Thin(s.heap[s.heap[r].thread], s'.heap[s.heap[r].thread]); }
    }
    forall r | r in s'.heap && r in s'.color && s'.heap[r].OpenUpval? && !s'.color[r].White?
      ensures s'.color[r] == Gray
    {
      assert Thin(s.heap[r], s'.heap[r]);
    }
  }

  lemma ThinWeak(s: State, s': State)
    requires WeakOk(s) && ThinHeap(s.heap, s'.heap) && Marked(s) <= Marked(s')
    requires s'.weak == s.weak && s'.allweak == s.allweak && s'.ephemeron == s.ephemeron
    ensures WeakOk(s')
  {
    forall r | r in s.heap
      ensures Thin(s.heap[r], s'.heap[r])
    {
    }
  }

  lemma ThinLists(s: State, s': State, busy: set<Ref>)
    requires s.color.Keys == s.heap.Keys && ListsOk(s, busy) && ThinHeap(s.heap, s'.heap)
    requires s' == s.(heap := s'.heap)
    ensures ListsOk(s', busy)
  {
    GrayListsSame(s, s');
    hide GrayLists, Listable, Thin;
    forall r
      ensures Waiting(s', busy, r) == Waiting(s, busy, r)
      ensures Waiting(s', busy, r) ==> Listable(s'.heap[r])
    {
      if r in s.heap { ThinKind(s.heap[r], s'.heap[r]); }
    }
  }

  lemma ThinKind(o: Object, o': Object)
    requires Thin(o, o')
    ensures Listable(o') == Listable(o) && o'.OpenUpval? == o.OpenUpval? && o'.Table? == o.Table? && o'.Str? == o.Str?
  {
  }

  lemma VisitsMarked(s: State, s': State)
    requires Visits(s, s')
    ensures Marked(s) <= Marked(s') && s'.heap.Keys == s.heap.Keys && s'.phase == s.phase
    ensures forall r :: r in s.heap ==> Quiet(s.heap[r], s'.heap[r])
  {
  }

  // ----- loops -----

  lemma {:induction false} MarkAllOk(s: State, vs: seq<Value>, busy: set<Ref>, c: set<Ref>)
    requires Tri(s, busy) && Bounded(s, c) && AllIn(vs, c) && AllIn(vs, s.heap.Keys)
    ensures Tri(MarkAll(s, vs), busy) && Bounded(MarkAll(s, vs), c)
    ensures AllIn(vs, Marked(MarkAll(s, vs)))
    decreases |vs|
  {
    hide Tri, Bounded, Marks, Visits;
    if vs != [] {
      MarkValueOk(s, vs[0], busy, c);
      var s1 := MarkValue(s, vs[0]);
      MarksHeap(s, s1);
      MarkAllOk(s1, vs[1..], busy, c);
      MarkAllVisits(s1, vs[1..]);
      VisitsMarked(s1, MarkAll(s, vs));
      assert vs == [vs[0]] + vs[1..];
    }
  }

  lemma RemoveEntryOk(s: State, r: Ref, i: nat, busy: set<Ref>, c: set<Ref>)
    requires Tri(s, busy) && Bounded(s, c)
    ensures Tri(RemoveEntry(s, r, i), busy) && Bounded(RemoveEntry(s, r, i), c)
    ensures Marked(RemoveEntry(s, r, i)) == Marked(s)
    ensures var e := EntryAt(s, r, i);
            e.val == Nil && In(e.key, s.heap.Keys) ==>
              EntryAt(RemoveEntry(s, r, i), r, i).val == Nil && In(EntryAt(RemoveEntry(s, r, i), r, i).key, Marked(s))
  {
    hide Tri, Bounded, QuietHeap;
    RemoveEntryQuiet(s, r, i);
    QuietTri(s, RemoveEntry(s, r, i).heap, busy, c);
    RemovedKey(s, r, i) by { SameKeys(s, busy); }
  }

  lemma SameKeys(s: State, busy: set<Ref>)
    requires Tri(s, busy)
    ensures s.color.Keys == s.heap.Keys
  {
  }

  lemma RemoveEntryQuiet(s: State, r: Ref, i: nat)
    ensures RemoveEntry(s, r, i) == s.(heap := RemoveEntry(s, r, i).heap)
    ensures QuietHeap(s.heap, RemoveEntry(s, r, i).heap)
  {
  }

  lemma RemovedKey(s: State, r: Ref, i: nat)
    requires s.color.Keys == s.heap.Keys
    ensures var e := EntryAt(s, r, i);
            e.val == Nil && In(e.key, s.heap.Keys) ==>
              EntryAt(RemoveEntry(s, r, i), r, i).val == Nil && In(EntryAt(RemoveEntry(s, r, i), r, i).key, Marked(s))
  {
  }

  predicate EntryDone(e: Entry, p: set<Ref>) {
    EntryIn(e, p) && In(e.key, p)
  }

  lemma EntriesQuiet(s: State, s': State, r: Ref)
    requires Visits(s, s') && r in s.heap && s.heap[r].Table?
    ensures s'.heap[r].Table? && |s'.heap[r].hash| == |s.heap[r].hash|
    ensures s'.heap[r] == s.heap[r].(hash := s'.heap[r].hash)
    ensures forall j :: 0 <= j < |s.heap[r].hash| ==> QuietEntry(s.heap[r].hash[j], s'.heap[r].hash[j])
    ensures s'.heap.Keys == s.heap.Keys && Marked(s) <= Marked(s')
  {
    VisitsMarked(s, s');
    assert Quiet(s.heap[r], s'.heap[r]);
  }

  /** What the heap and the bound say about the entries of a table. */
  lemma EntryBounds(s: State, r: Ref, busy: set<Ref>, c: set<Ref>)
    requires Tri(s, busy) && Bounded(s, c) && r in s.heap && s.heap[r].Table? && r in c
    ensures EntriesIn(s.heap[r].hash, s.heap.Keys) && AllIn(s.heap[r].arr, s.heap.Keys)
    ensures In(s.heap[r].meta, s.heap.Keys)
    ensures StrongWithin(s.heap, r, c)
    ensures !s.heap[r].mode.AllWeak? ==> KeysIn(s.heap[r].hash, s.heap.Keys)
  {
    assert Within(s.heap, r, s.heap.Keys);
  }

  lemma StrongEntryOk(s: State, r: Ref, i: nat, busy: set<Ref>, c: set<Ref>)
    requires Tri(s, busy) && Bounded(s, c) && r in s.heap && s.heap[r].Table? && i < |s.heap[r].hash|
    requires r in c && s.heap[r].mode.Strong? && KeyKnown(s, s.heap[r].hash[i])
    ensures var s' := StrongEntry(s, r, i);
            && Tri(s', busy) && Bounded(s', c) && r in s'.heap && s'.heap[r].Table? && i < |s'.heap[r].hash|
            && EntryDone(s'.heap[r].hash[i], Marked(s'))
  {
    hide Tri, Bounded, Marks;
    var e := s.heap[r].hash[i];
    EntryBounds(s, r, busy, c);
    if e.val == Nil {
      RemoveEntryOk(s, r, i, busy, c);
    } else {
      MarkValueOk(s, e.key, busy, c);
      var s1 := MarkValue(s, e.key);
      MarksHeap(s, s1);
      MarkValueOk(s1, e.val, busy, c);
      MarksHeap(s1, MarkValue(s1, e.val));
    }
  }

  /** The key of an empty entry is dead or still there. */
  predicate KeyKnown(s: State, e: Entry) {
    In(e.key, s.heap.Keys)
  }

  lemma {:induction false} StrongEntriesOk(s: State, r: Ref, i: nat, n: nat, busy: set<Ref>, c: set<Ref>)
    requires Tri(s, busy) && Bounded(s, c) && r in s.heap && s.heap[r].Table? && |s.heap[r].hash| == n
    requires r in c && s.heap[r].mode.Strong? && i <= n
    requires KeysIn(s.heap[r].hash, s.heap.Keys)
    requires forall j :: 0 <= j < i ==> EntryDone(s.heap[r].hash[j], Marked(s))
    ensures var s' := StrongEntries(s, r, i, n);
            && Tri(s', busy) && Bounded(s', c) && r in s'.heap && s'.heap[r].Table? && |s'.heap[r].hash| == n
            && forall j :: 0 <= j < n ==> EntryDone(s'.heap[r].hash[j], Marked(s'))
    decreases n - i
  {
    hide Tri, Bounded, Visits, StrongEntry;
    if i < n {
      var s1 := StrongEntry(s, r, i);
      StrongEntryVisits(s, r, i);
      EntriesQuiet(s, s1, r);
      StrongEntryOk(s, r, i, busy, c);
      assert forall j :: 0 <= j < n ==> QuietEntry(s.heap[r].hash[j], s1.heap[r].hash[j]);
      StrongEntriesOk(s1, r, i + 1, n, busy, c);
    }
  }

  lemma ClearedOk(s: State, v: Value, busy: set<Ref>, c: set<Ref>)
    requires Tri(s, busy) && Bounded(s, c) && In(v, s.heap.Keys)
    ensures var (s', b) := Cleared(s, v);
            && Tri(s', busy) && Bounded(s', c) && s'.heap == s.heap && Marked(s) <= Marked(s')
            && (!b ==> In(v, Marked(s')))
            && (b ==> s' == s && v.Obj? && v.ref in s.heap && !s.heap[v.ref].Str? && v.ref !in Marked(s))
            && (forall x :: x in Marked(s') && x !in Marked(s) ==> x in s.heap && s.heap[x].Str?)
  {
    assert v.Obj? && v.ref !in Marked(s) ==> IsWhite(s, v);
    assert IsString(s, v) ==> v.ref in c;
    hide Tri, Bounded, Marks;
    if IsString(s, v) {
      MarkValueOk(s, v, busy, c);
      MarksHeap(s, MarkValue(s, v));
      StringMark(s, v);
    }
  }

  lemma StringMark(s: State, v: Value)
    requires IsString(s, v)
    ensures forall x :: x in Marked(MarkValue(s, v)) && x !in Marked(s) ==> x in s.heap && s.heap[x].Str?
  {
    if IsWhite(s, v) {
      assert Mark(s, v.ref) == Blacken(Paint(s, v.ref, Gray), v.ref);
    }
  }

  // ----- tables with weak values -----

  predicate ValueEntryDone(e: Entry, p: set<Ref>, clears: bool) {
    In(e.key, p) && (!clears ==> In(e.val, p))
  }

  lemma WeakValueEntryOk(s: State, r: Ref, i: nat, clears: bool, busy: set<Ref>, c: set<Ref>)
    requires Tri(s, busy) && Bounded(s, c) && r in s.heap && s.heap[r].Table? && i < |s.heap[r].hash|
    requires r in c && s.heap[r].mode.WeakValues? && KeyKnown(s, s.heap[r].hash[i])
    ensures var (s', clears') := WeakValueEntry(s, r, i, clears);
            && Tri(s', busy) && Bounded(s', c) && r in s'.heap && s'.heap[r].Table? && i < |s'.heap[r].hash|
            && (clears ==> clears') && ValueEntryDone(s'.heap[r].hash[i], Marked(s'), clears')
  {
    hide Tri, Bounded, Marks, Cleared;
    var e := s.heap[r].hash[i];
    EntryBounds(s, r, busy, c);
    if e.val == Nil {
      RemoveEntryOk(s, r, i, busy, c);
    } else {
      MarkValueOk(s, e.key, busy, c);
      var s1 := MarkValue(s, e.key);
      MarksHeap(s, s1);
      ClearedOk(s1, e.val, busy, c);
    }
  }

  lemma {:induction false} WeakValueEntriesOk(s: State, r: Ref, i: nat, n: nat, clears: bool, busy: set<Ref>,
      c: set<Ref>)
    requires Tri(s, busy) && Bounded(s, c) && r in s.heap && s.heap[r].Table? && |s.heap[r].hash| == n
    requires r in c && s.heap[r].mode.WeakValues? && i <= n
    requires KeysIn(s.heap[r].hash, s.heap.Keys)
    requires forall j :: 0 <= j < i ==> ValueEntryDone(s.heap[r].hash[j], Marked(s), clears)
    ensures var (s', clears') := WeakValueEntries(s, r, i, n, clears);
            && Tri(s', busy) && Bounded(s', c) && r in s'.heap && s'.heap[r].Table? && |s'.heap[r].hash| == n
            && (clears ==> clears')
            && forall j :: 0 <= j < n ==> ValueEntryDone(s'.heap[r].hash[j], Marked(s'), clears')
    decreases n - i
  {
    hide Tri, Bounded, Visits, WeakValueEntry;
    if i < n {
      var (s1, c1) := WeakValueEntry(s, r, i, clears);
      WeakValueEntryVisits(s, r, i, clears);
      EntriesQuiet(s, s1, r);
      WeakValueEntryOk(s, r, i, clears, busy, c);
      assert forall j :: 0 <= j < n ==> QuietEntry(s.heap[r].hash[j], s1.heap[r].hash[j]);
      WeakValueEntriesOk(s1, r, i + 1, n, c1, busy, c);
    }
  }

  // ----- ephemeron tables -----

  /** An entry whose key is not marked, or whose value is. */
  predicate Settled(s: State, e: Entry) {
    e.val != Nil ==>
      In(e.val, Marked(s)) || (e.key.Obj? && e.key.ref in s.heap && !s.heap[e.key.ref].Str? && e.key.ref !in Marked(s))
  }

  predicate EphemeronDone(s: State, e: Entry, f: Found) {
    && (!f.clears ==> In(e.key, Marked(s)) && In(e.val, Marked(s)))
    && (!f.prop ==> In(e.val, Marked(s)))
    && (!f.marked ==> Settled(s, e))
    && (e.val == Nil ==> In(e.key, Marked(s)))
  }

  /** Only strings were marked. */
  ghost predicate OnlyStrings(s: State, s': State) {
    forall x :: x in Marked(s') && x !in Marked(s) ==> x in s.heap && s.heap[x].Str?
  }

  lemma {:induction false} EphemeronArrayMarks(s: State, vs: seq<Value>, f: Found)
    ensures EphemeronArray(s, vs, f).0 == MarkAll(s, vs)
    decreases |vs|
  {
    hide Mark;
    if vs != [] {
      if IsWhite(s, vs[0]) {
        EphemeronArrayMarks(Mark(s, vs[0].ref), vs[1..], f.(marked := true));
      } else {
        EphemeronArrayMarks(s, vs[1..], f);
      }
    }
  }

  lemma EphemeronEntryOk(s: State, r: Ref, i: nat, f: Found, busy: set<Ref>, c: set<Ref>)
    requires Tri(s, busy) && Bounded(s, c) && r in s.heap && s.heap[r].Table? && i < |s.heap[r].hash|
    requires r in c && s.heap[r].mode.WeakKeys? && KeyKnown(s, s.heap[r].hash[i])
    ensures var (s', f') := EphemeronEntry(s, r, i, f);
            && Tri(s', busy) && Bounded(s', c) && r in s'.heap && s'.heap[r].Table? && i < |s'.heap[r].hash|
            && EphemeronDone(s', s'.heap[r].hash[i], f')
            && (!f'.marked ==> OnlyStrings(s, s'))
  {
    hide Tri, Bounded, Cleared, RemoveEntry, Mark, StrongWithin, Keeps, EphemeronDone, OnlyStrings, Marks, Load;
    var e := s.heap[r].hash[i];
    EntryBounds(s, r, busy, c);
    if e.val == Nil {
      EmptyEntryOk(s, r, i, f, busy, c);
    } else {
      ClearedOk(s, e.key, busy, c);
      var (s1, cleared) := Cleared(s, e.key);
      SameKeys(s1, busy);
      ClearedStrings(s, s1);
      if cleared {
        UnmarkedKey(s1, e, f.(clears := true, prop := f.prop || IsWhite(s1, e.val)));
      } else if IsWhite(s1, e.val) {
        KeptValue(s1, r, i, c) by { BoundedMarked(s1, c); }
        MarkOk(s1, e.val.ref, busy, c);
        MarksHeap(s1, Mark(s1, e.val.ref));
        KeptDone(Mark(s1, e.val.ref), e, f.(marked := true));
      } else {
        KeptDone(s1, e, f);
      }
    }
  }

  lemma EmptyEntryOk(s: State, r: Ref, i: nat, f: Found, busy: set<Ref>, c: set<Ref>)
    requires Tri(s, busy) && Bounded(s, c) && r in s.heap && s.heap[r].Table? && i < |s.heap[r].hash|
    requires r in c && s.heap[r].mode.WeakKeys? && KeyKnown(s, s.heap[r].hash[i]) && s.heap[r].hash[i].val == Nil
    ensures var s' := RemoveEntry(s, r, i);
            && Tri(s', busy) && Bounded(s', c) && r in s'.heap && s'.heap[r].Table? && i < |s'.heap[r].hash|
            && EphemeronDone(s', s'.heap[r].hash[i], f) && OnlyStrings(s, s')
  {
    hide Tri, Bounded, EphemeronDone, OnlyStrings;
    EntryBounds(s, r, busy, c);
    RemoveEntryOk(s, r, i, busy, c);
    EmptyDone(s, RemoveEntry(s, r, i), r, i, f);
  }

  lemma EmptyDone(s: State, s': State, r: Ref, i: nat, f: Found)
    requires EntryAt(s', r, i).val == Nil && In(EntryAt(s', r, i).key, Marked(s')) && Marked(s') == Marked(s)
    ensures EphemeronDone(s', EntryAt(s', r, i), f) && OnlyStrings(s, s')
  {
  }

  lemma ClearedStrings(s: State, s': State)
    requires forall x :: x in Marked(s') && x !in Marked(s) ==> x in s.heap && s.heap[x].Str?
    ensures OnlyStrings(s, s')
  {
  }

  lemma KeptValue(s: State, r: Ref, i: nat, c: set<Ref>)
    requires r in s.heap && s.heap[r].Table? && s.heap[r].mode.WeakKeys? && i < |s.heap[r].hash|
    requires StrongWithin(s.heap, r, c) && Marked(s) <= c
    requires In(s.heap[r].hash[i].key, Marked(s)) && s.heap[r].hash[i].val != Nil
    ensures In(s.heap[r].hash[i].val, c)
  {
  }

  lemma KeptDone(s: State, e: Entry, f: Found)
    requires In(e.key, Marked(s)) && e.val != Nil && In(e.val, Marked(s))
    ensures EphemeronDone(s, e, f)
  {
  }

  lemma BoundedMarked(s: State, c: set<Ref>)
    requires Bounded(s, c)
    ensures Marked(s) <= c
  {
  }

  lemma UnmarkedKey(s: State, e: Entry, f: Found)
    requires e.key.Obj? && e.key.ref in s.heap && !s.heap[e.key.ref].Str? && e.key.ref !in Marked(s)
    requires e.val != Nil && In(e.val, s.heap.Keys) && s.color.Keys == s.heap.Keys
    requires f.clears && (!f.prop ==> !IsWhite(s, e.val))
    ensures EphemeronDone(s, e, f)
  {
  }

  lemma SettledStays(s: State, s': State, e: Entry, e': Entry, f: Found, f': Found)
    requires Visits(s, s') && QuietEntry(e, e') && EphemeronDone(s, e, f)
    requires (f.marked ==> f'.marked) && (f.clears ==> f'.clears) && (f.prop ==> f'.prop)
    requires !f'.marked ==> OnlyStrings(s, s')
    ensures EphemeronDone(s', e', f')
  {
    VisitsMarked(s, s');
    if e.key.Obj? && e.key.ref in s.heap { assert Quiet(s.heap[e.key.ref], s'.heap[e.key.ref]); }
  }

  lemma OnlyStringsTrans(a: State, b: State, c: State)
    requires OnlyStrings(a, b) && OnlyStrings(b, c) && Visits(a, b)
    ensures OnlyStrings(a, c)
  {
    VisitsMarked(a, b);
    forall x | x in Marked(c) && x !in Marked(a)
      ensures x in a.heap && a.heap[x].Str?
    {
      if x !in Marked(b) { assert Quiet(a.heap[x], b.heap[x]); }
    }
  }

  lemma {:induction false} EphemeronEntriesOk(s: State, r: Ref, i: nat, n: nat, f: Found, busy: set<Ref>, c: set<Ref>)
    requires Tri(s, busy) && Bounded(s, c) && r in s.heap && s.heap[r].Table? && |s.heap[r].hash| == n
    requires r in c && s.heap[r].mode.WeakKeys? && i <= n
    requires KeysIn(s.heap[r].hash, s.heap.Keys)
    requires forall j :: 0 <= j < i ==> EphemeronDone(s, s.heap[r].hash[j], f)
    ensures var (s', f') := EphemeronEntries(s, r, i, n, f);
            && Tri(s', busy) && Bounded(s', c) && r in s'.heap && s'.heap[r].Table? && |s'.heap[r].hash| == n
            && (f.marked ==> f'.marked)
            && (!f'.marked ==> OnlyStrings(s, s'))
            && forall j :: 0 <= j < n ==> EphemeronDone(s', s'.heap[r].hash[j], f')
    decreases n - i
  {
    hide Tri, Bounded, Visits, EphemeronEntry, EphemeronDone;
    if i < n {
      var (s1, f1) := EphemeronEntry(s, r, i, f);
      EphemeronEntryVisits(s, r, i, f);
      EntriesQuiet(s, s1, r);
      EphemeronEntryOk(s, r, i, f, busy, c);
      forall j | 0 <= j < i + 1
        ensures EphemeronDone(s1, s1.heap[r].hash[j], f1)
      {
        if j < i { SettledStays(s, s1, s.heap[r].hash[j], s1.heap[r].hash[j], f, f1); }
      }
      assert forall j :: 0 <= j < n ==> QuietEntry(s.heap[r].hash[j], s1.heap[r].hash[j]);
      EphemeronEntriesOk(s1, r, i + 1, n, f1, busy, c);
      var (s', f') := EphemeronEntries(s1, r, i + 1, n, f1);
      if !f'.marked { OnlyStringsTrans(s, s1, s'); }
    }
  }
}

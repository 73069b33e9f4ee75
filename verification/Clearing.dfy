/** Clearing the weak tables removes exactly the references to objects that were not marked. */
module Clearing {
  import opened CollectorState
  import opened Tricolor
  import opened Traversal
  import opened Visiting
  import opened Propagation
  import opened AtomicPhase
  import opened Convergence

  /** A reference that a weak table does not keep. */
  predicate Gone(h: map<Ref, Object>, v: Value, marked: set<Ref>) {
    v.Obj? && v.ref in h && !h[v.ref].Str? && v.ref !in marked
  }

  predicate ClearedEntry(h: map<Ref, Object>, e: Entry, e': Entry, marked: set<Ref>) {
    e' == e || ((Gone(h, e.key, marked) || Gone(h, e.val, marked))
                && e'.val == Nil && (e'.key == DeadKey || (e'.key == e.key && In(e.key, marked))))
  }

  predicate ClearedTable(h: map<Ref, Object>, o: Object, o': Object, marked: set<Ref>) {
    if o.Table? then
      && o'.Table? && o' == o.(arr := o'.arr, hash := o'.hash) && |o'.arr| == |o.arr| && |o'.hash| == |o.hash|
      && (forall i :: 0 <= i < |o.arr| ==> o'.arr[i] == o.arr[i] || (Gone(h, o.arr[i], marked) && o'.arr[i] == Nil))
      && (forall i :: 0 <= i < |o.hash| ==> ClearedEntry(h, o.hash[i], o'.hash[i], marked))
    else o' == o
  }

  /** Weak references to unmarked objects are removed and strings may get marked; nothing else changes. */
  ghost predicate Clears(s: State, s': State) {
    && s' == s.(heap := s'.heap, color := s'.color)
    && s'.color.Keys == s.color.Keys && Recolors(s, s') && OnlyStrings(s, s')
    && s'.heap.Keys == s.heap.Keys
    && forall r :: r in s.heap ==> ClearedTable(s.heap, s.heap[r], s'.heap[r], Marked(s'))
  }

  lemma ClearsMarked(s: State, s': State)
    requires Clears(s, s')
    ensures Marked(s) <= Marked(s') && ThinHeap(s.heap, s'.heap)
    ensures forall r :: r in s.heap ==> s'.heap[r].Str? == s.heap[r].Str? && s'.heap[r].Table? == s.heap[r].Table?
  {
    forall r | r in s.heap
      ensures Thin(s.heap[r], s'.heap[r])
    {
      assert ClearedTable(s.heap, s.heap[r], s'.heap[r], Marked(s'));
      if s.heap[r].Table? {
        assert forall i :: 0 <= i < |s.heap[r].hash| ==>
            ClearedEntry(s.heap, s.heap[r].hash[i], s'.heap[r].hash[i], Marked(s'));
      }
    }
  }

  lemma ClearsRefl(s: State)
    ensures Clears(s, s)
  {
  }

  lemma GoneStays(a: State, b: State, c: State, v: Value)
    requires Clears(a, b) && Clears(b, c)
    ensures Gone(a.heap, v, Marked(b)) ==> Gone(a.heap, v, Marked(c))
    ensures Gone(b.heap, v, Marked(c)) ==> Gone(a.heap, v, Marked(c))
  {
    ClearsMarked(a, b);
    ClearsMarked(b, c);
  }

  lemma ClearsTrans(a: State, b: State, c: State)
    requires Clears(a, b) && Clears(b, c)
    ensures Clears(a, c)
  {
    ClearsMarked(a, b);
    ClearsMarked(b, c);
    OnlyClears(a, b, c);
    forall r | r in a.heap
      ensures ClearedTable(a.heap, a.heap[r], c.heap[r], Marked(c))
    {
      ClearedTableTrans(a, b, c, r);
    }
  }

  lemma OnlyClears(a: State, b: State, c: State)
    requires Clears(a, b) && Clears(b, c)
    ensures OnlyStrings(a, c) && Recolors(a, c)
  {
    ClearsMarked(a, b);
    forall x | x in Marked(c) && x !in Marked(a)
      ensures x in a.heap && a.heap[x].Str?
    {
      if x !in Marked(b) { assert x in b.heap && b.heap[x].Str?; }
    }
  }

  lemma ClearedTableTrans(a: State, b: State, c: State, r: Ref)
    requires Clears(a, b) && Clears(b, c) && r in a.heap
    ensures ClearedTable(a.heap, a.heap[r], c.heap[r], Marked(c))
  {
    var o, o1, o2 := a.heap[r], b.heap[r], c.heap[r];
    assert ClearedTable(a.heap, o, o1, Marked(b)) && ClearedTable(b.heap, o1, o2, Marked(c));
    if o.Table? {
      ClearsMarked(a, b);
      ClearsMarked(b, c);
      forall i | 0 <= i < |o.arr|
        ensures o2.arr[i] == o.arr[i] || (Gone(a.heap, o.arr[i], Marked(c)) && o2.arr[i] == Nil)
      {
        GoneStays(a, b, c, o.arr[i]);
      }
      forall i | 0 <= i < |o.hash|
        ensures ClearedEntry(a.heap, o.hash[i], o2.hash[i], Marked(c))
      {
        ClearedEntryTrans(a, b, c, o.hash[i], o1.hash[i], o2.hash[i]);
      }
    }
  }

  lemma ClearedEntryTrans(a: State, b: State, c: State, e: Entry, e1: Entry, e2: Entry)
    requires Clears(a, b) && Clears(b, c)
    requires ClearedEntry(a.heap, e, e1, Marked(b)) && ClearedEntry(b.heap, e1, e2, Marked(c))
    ensures ClearedEntry(a.heap, e, e2, Marked(c))
  {
    ClearsMarked(b, c);
    GoneStays(a, b, c, e.key);
    GoneStays(a, b, c, e.val);
  }

  // ----- one table -----

  lemma ClearEntryOk(s: State, r: Ref, i: nat, byKey: bool, c: set<Ref>)
    requires Tri(s, {}) && Bounded(s, c) && r in s.heap && s.heap[r].Table? && i < |s.heap[r].hash|
    ensures var s' := ClearEntry(s, r, i, byKey);
            && Tri(s', {}) && Bounded(s', c) && Clears(s, s')
            && r in s'.heap && s'.heap[r].Table? && i < |s'.heap[r].hash|
            && var e' := s'.heap[r].hash[i];
               e'.val != Nil ==> In(if byKey then e'.key else e'.val, Marked(s'))
  {
    var e := s.heap[r].hash[i];
    if e.val == Nil {
      ClearsRefl(s);
    } else {
      var v := if byKey then e.key else e.val;
      TableBounds(s, r, i);
      ClearedOk(s, v, {}, c);
      var (s1, b) := Cleared(s, v);
      if b {
        assert s1 == s;
        var h := RemoveEntry(SetEntry(s, r, i, Entry(e.key, Nil)), r, i).heap;
        EmptyEntry(s, r, i, byKey);
        hide Tri, Bounded, ThinHeap;
        ThinTri(s, h, {}, c);
      } else {
        MarksClears(s, v);
      }
    }
  }

  lemma TableBounds(s: State, r: Ref, i: nat)
    requires Tri(s, {}) && r in s.heap && s.heap[r].Table? && i < |s.heap[r].hash| && s.heap[r].hash[i].val != Nil
    ensures In(s.heap[r].hash[i].key, s.heap.Keys) && In(s.heap[r].hash[i].val, s.heap.Keys)
  {
    assert Within(s.heap, r, s.heap.Keys);
  }

  lemma MarksClears(s: State, v: Value)
    requires IsString(s, v) || !v.Obj? || !IsWhite(s, v)
    ensures Clears(s, Cleared(s, v).0)
  {
    if IsString(s, v) {
      MarkValueMarks(s, v);
      StringMarked(s, v);
      StringMark(s, v);
    }
  }

  lemma EmptyEntry(s: State, r: Ref, i: nat, byKey: bool)
    requires s.color.Keys == s.heap.Keys && r in s.heap && s.heap[r].Table? && i < |s.heap[r].hash|
    requires var e := s.heap[r].hash[i];
             e.val != Nil && In(e.key, s.heap.Keys) && Gone(s.heap, if byKey then e.key else e.val, Marked(s))
    ensures var e := s.heap[r].hash[i];
            var s' := RemoveEntry(SetEntry(s, r, i, Entry(e.key, Nil)), r, i);
            && Clears(s, s') && s' == s.(heap := s'.heap) && ThinHeap(s.heap, s'.heap)
            && r in s'.heap && s'.heap[r].Table? && i < |s'.heap[r].hash| && s'.heap[r].hash[i].val == Nil
  {
    var e := s.heap[r].hash[i];
    var s1 := SetEntry(s, r, i, Entry(e.key, Nil));
    var s' := RemoveEntry(s1, r, i);
    assert Marked(s') == Marked(s);
    assert s'.heap[r].hash[i].val == Nil &&
        (s'.heap[r].hash[i].key == DeadKey || (s'.heap[r].hash[i].key == e.key && In(e.key, Marked(s))));
    assert ClearedTable(s.heap, s.heap[r], s'.heap[r], Marked(s'));
    ClearsMarked(s, s');
  }

  predicate EntriesClear(s: State, r: Ref, byKey: bool) {
    && r in s.heap && s.heap[r].Table?
    && forall i :: 0 <= i < |s.heap[r].hash| && s.heap[r].hash[i].val != Nil ==>
         In(if byKey then s.heap[r].hash[i].key else s.heap[r].hash[i].val, Marked(s))
  }

  lemma {:induction false} ClearEntriesOk(s: State, r: Ref, i: nat, n: nat, byKey: bool, c: set<Ref>)
    requires Tri(s, {}) && Bounded(s, c) && r in s.heap && s.heap[r].Table? && n == |s.heap[r].hash| && i <= n
    requires forall j :: 0 <= j < i && s.heap[r].hash[j].val != Nil ==>
               In(if byKey then s.heap[r].hash[j].key else s.heap[r].hash[j].val, Marked(s))
    ensures var s' := ClearEntries(s, r, i, n, byKey);
            Tri(s', {}) && Bounded(s', c) && Clears(s, s') && EntriesClear(s', r, byKey)
    decreases n - i
  {
    hide Tri, Bounded, Clears, ClearEntry;
    if i < n {
      var s1 := ClearEntry(s, r, i, byKey);
      ClearEntryOk(s, r, i, byKey, c);
      ClearedSame(s, s1, r);
      ClearEntriesOk(s1, r, i + 1, n, byKey, c);
      ClearsTrans(s, s1, ClearEntries(s, r, i, n, byKey));
    } else {
      ClearsRefl(s);
    }
  }

  /** What is left of a table after clearing was there before. */
  lemma ClearedSame(s: State, s': State, r: Ref)
    requires Clears(s, s') && r in s.heap && s.heap[r].Table?
    ensures s'.heap[r].Table? && |s'.heap[r].hash| == |s.heap[r].hash| && |s'.heap[r].arr| == |s.heap[r].arr|
    ensures s'.heap[r].meta == s.heap[r].meta && s'.heap[r].mode == s.heap[r].mode
    ensures forall j :: 0 <= j < |s.heap[r].hash| ==> s'.heap[r].hash[j].val != Nil ==>
        s'.heap[r].hash[j] == s.heap[r].hash[j]
    ensures forall j :: 0 <= j < |s.heap[r].arr| ==> s'.heap[r].arr[j] == s.heap[r].arr[j] || s'.heap[r].arr[j] == Nil
    ensures Marked(s) <= Marked(s') && s'.heap.Keys == s.heap.Keys
    ensures s'.weak == s.weak && s'.allweak == s.allweak && s'.ephemeron == s.ephemeron && s'.gray == s.gray
  {
    assert ClearedTable(s.heap, s.heap[r], s'.heap[r], Marked(s'));
    ClearsMarked(s, s');
    forall j | 0 <= j < |s.heap[r].hash|
      ensures s'.heap[r].hash[j].val != Nil ==> s'.heap[r].hash[j] == s.heap[r].hash[j]
    {
      assert ClearedEntry(s.heap, s.heap[r].hash[j], s'.heap[r].hash[j], Marked(s'));
    }
  }

  predicate SlotsClear(s: State, r: Ref) {
    r in s.heap && s.heap[r].Table? && AllIn(s.heap[r].arr, Marked(s))
  }

  lemma SlotHeld(s: State, r: Ref, i: nat)
    requires NoDangling(s) && r in s.heap && s.heap[r].Table? && i < |s.heap[r].arr|
    ensures In(s.heap[r].arr[i], s.heap.Keys)
  {
    assert Within(s.heap, r, s.heap.Keys);
  }

  lemma ClearSlotOk(s: State, r: Ref, i: nat, c: set<Ref>)
    requires Tri(s, {}) && Bounded(s, c) && r in s.heap && s.heap[r].Table? && i < |s.heap[r].arr|
    ensures var s' := ClearSlot(s, r, i);
            && Tri(s', {}) && Bounded(s', c) && Clears(s, s')
            && r in s'.heap && s'.heap[r].Table? && i < |s'.heap[r].arr| && In(s'.heap[r].arr[i], Marked(s'))
  {
    var v := s.heap[r].arr[i];
    SlotHeld(s, r, i);
    hide Tri, Bounded;
    ClearedOk(s, v, {}, c);
    var (s1, b) := Cleared(s, v);
    if b {
      var h := s.heap[r := s.heap[r].(arr := s.heap[r].arr[i := Nil])];
      assert s1 == s && ClearSlot(s, r, i) == s.(heap := h);
      hide Tri, Bounded, ThinHeap, Clears, Cleared, ClearSlot;
      SameKeys(s, {});
      NilSlot(s, r, i);
      ThinTri(s, h, {}, c);
    } else {
      MarksClears(s, v);
    }
  }

  lemma NilSlot(s: State, r: Ref, i: nat)
    requires s.color.Keys == s.heap.Keys && r in s.heap && s.heap[r].Table? && i < |s.heap[r].arr|
    requires Gone(s.heap, s.heap[r].arr[i], Marked(s))
    ensures var h := s.heap[r := s.heap[r].(arr := s.heap[r].arr[i := Nil])];
            ThinHeap(s.heap, h) && Clears(s, s.(heap := h)) && Marked(s.(heap := h)) == Marked(s)
  {
    var h := s.heap[r := s.heap[r].(arr := s.heap[r].arr[i := Nil])];
    assert Marked(s.(heap := h)) == Marked(s);
    assert ClearedTable(s.heap, s.heap[r], h[r], Marked(s));
    ClearsMarked(s, s.(heap := h));
  }

  lemma {:induction false} ClearSlotsOk(s: State, r: Ref, i: nat, n: nat, c: set<Ref>)
    requires Tri(s, {}) && Bounded(s, c) && r in s.heap && s.heap[r].Table? && n == |s.heap[r].arr| && i <= n
    requires forall j :: 0 <= j < i ==> In(s.heap[r].arr[j], Marked(s))
    ensures var s' := ClearSlots(s, r, i, n);
            Tri(s', {}) && Bounded(s', c) && Clears(s, s') && SlotsClear(s', r)
    decreases n - i
  {
    hide Tri, Bounded, Clears, ClearSlot;
    if i < n {
      var s1 := ClearSlot(s, r, i);
      ClearSlotOk(s, r, i, c);
      ClearedSame(s, s1, r);
      ClearSlotsOk(s1, r, i + 1, n, c);
      ClearsTrans(s, s1, ClearSlots(s, r, i, n));
    } else {
      ClearsRefl(s);
    }
  }

  lemma ClearStays(s: State, s': State, r: Ref)
    requires Clears(s, s')
    ensures SlotsClear(s, r) ==> SlotsClear(s', r)
    ensures EntriesClear(s, r, true) ==> EntriesClear(s', r, true)
    ensures EntriesClear(s, r, false) ==> EntriesClear(s', r, false)
  {
    if r in s.heap && s.heap[r].Table? {
      ClearedSame(s, s', r);
    }
  }

  // ----- whole lists -----

  lemma {:induction false} ClearKeysOk(s: State, l: seq<Ref>, c: set<Ref>)
    requires Tri(s, {}) && Bounded(s, c) && AllTables(s, l)
    ensures var s' := ClearKeys(s, l);
            Tri(s', {}) && Bounded(s', c) && Clears(s, s') && forall r :: r in l ==> EntriesClear(s', r, true)
    decreases |l|
  {
    hide Tri, Bounded, Clears, ClearEntries, EntriesClear;
    if l == [] {
      ClearsRefl(s);
    } else {
      assert l == [l[0]] + l[1..];
      var s1 := ClearEntries(s, l[0], 0, HashSize(s, l[0]), true);
      ClearEntriesOk(s, l[0], 0, HashSize(s, l[0]), true, c);
      assert AllTables(s1, l[1..]) by { TablesStay(s, s1, l); }
      ClearKeysOk(s1, l[1..], c);
      ClearsTrans(s, s1, ClearKeys(s, l));
      ClearStays(s1, ClearKeys(s, l), l[0]);
    }
  }

  lemma TablesStay(s: State, s': State, l: seq<Ref>)
    requires Clears(s, s') && AllTables(s, l)
    ensures AllTables(s', l)
  {
    ClearsMarked(s, s');
  }

  lemma {:induction false} ClearValuesOk(s: State, l: seq<Ref>, c: set<Ref>)
    requires Tri(s, {}) && Bounded(s, c) && AllTables(s, l)
    ensures var s' := ClearValues(s, l);
            Tri(s', {}) && Bounded(s', c) && Clears(s, s') && forall r :: r in l ==>
                EntriesClear(s', r, false) && SlotsClear(s', r)
    decreases |l|
  {
    hide Tri, Bounded, Clears, ClearEntries, ClearSlots, EntriesClear, SlotsClear;
    if l == [] {
      ClearsRefl(s);
    } else {
      var r := l[0];
      assert l == [r] + l[1..];
      var s1 := ClearSlots(s, r, 0, ArraySize(s, r));
      ClearSlotsOk(s, r, 0, ArraySize(s, r), c);
      assert AllTables(s1, l) by { TablesStay(s, s1, l); }
      var s2 := ClearEntries(s1, r, 0, HashSize(s1, r), false);
      ClearEntriesOk(s1, r, 0, HashSize(s1, r), false, c);
      ClearStays(s1, s2, r);
      assert AllTables(s2, l[1..]) by { TablesStay(s1, s2, l); }
      ClearValuesOk(s2, l[1..], c);
      ClearsTrans(s, s1, s2);
      ClearsTrans(s, s2, ClearValues(s, l));
      ClearStays(s2, ClearValues(s, l), r);
    }
  }

  // ----- the result -----

  lemma DoneClears(s: State, s': State, r: Ref)
    requires Clears(s, s')
    ensures AgainDone(s, r) ==> AgainDone(s', r)
    ensures WeakDone(s, r) ==> WeakDone(s', r)
    ensures EphDone(s, r) ==> EphDone(s', r)
    ensures AllWeakDone(s, r) ==> AllWeakDone(s', r)
    ensures SettledTable(s, r) ==> SettledTable(s', r)
  {
    ClearsMarked(s, s');
    if r in s.heap {
      assert ClearedTable(s.heap, s.heap[r], s'.heap[r], Marked(s'));
      if Within(s.heap, r, Marked(s)) {
        ThinWithin(s.heap, s'.heap, r, Marked(s));
        WithinMono(s'.heap, r, Marked(s), Marked(s'));
      }
      if s.heap[r].Table? {
        TableClears(s, s', r);
      }
    }
  }

  lemma TableClears(s: State, s': State, r: Ref)
    requires Clears(s, s') && r in s.heap && s.heap[r].Table?
    ensures s'.heap[r].Table?
    ensures KeysIn(s.heap[r].hash, Marked(s)) ==> KeysIn(s'.heap[r].hash, Marked(s'))
    ensures EmptyKeysIn(s.heap[r].hash, Marked(s)) ==> EmptyKeysIn(s'.heap[r].hash, Marked(s'))
    ensures ValuesIn(s.heap[r].hash, Marked(s)) ==> ValuesIn(s'.heap[r].hash, Marked(s'))
    ensures AllIn(s.heap[r].arr, Marked(s)) ==> AllIn(s'.heap[r].arr, Marked(s'))
    ensures SettledTable(s, r) ==> SettledTable(s', r)
  {
    ClearsMarked(s, s');
    ClearedSame(s, s', r);
    assert ClearedTable(s.heap, s.heap[r], s'.heap[r], Marked(s'));
    assert forall j :: 0 <= j < |s.heap[r].hash| ==>
        ClearedEntry(s.heap, s.heap[r].hash[j], s'.heap[r].hash[j], Marked(s'));
    if SettledTable(s, r) {
      forall j | 0 <= j < |s'.heap[r].hash|
        ensures Settled(s', s'.heap[r].hash[j])
      {
        assert Settled(s, s.heap[r].hash[j]);
      }
    }
  }

  /** A table is clean when its list has been cleared as the list demands. */
  lemma CleanTable(s: State, r: Ref)
    requires r in s.heap
    ensures WeakDone(s, r) && EntriesClear(s, r, false) && SlotsClear(s, r) ==> Within(s.heap, r, Marked(s))
    ensures EphDone(s, r) && SettledTable(s, r) && EntriesClear(s, r, true) ==> Within(s.heap, r, Marked(s))
    ensures AllWeakDone(s, r) && EntriesClear(s, r, true) && EntriesClear(s, r, false) && SlotsClear(s, r) ==>
              Within(s.heap, r, Marked(s))
  {
    if EphDone(s, r) && SettledTable(s, r) && EntriesClear(s, r, true) {
      forall j | 0 <= j < |s.heap[r].hash|
        ensures EntryIn(s.heap[r].hash[j], Marked(s)) && In(s.heap[r].hash[j].key, Marked(s))
      {
        assert Settled(s, s.heap[r].hash[j]);
      }
    }
  }

  /** No marked object refers to an unmarked one, weakly or not. */
  ghost predicate MarkedClosed(s: State) {
    forall r :: r in Marked(s) ==> Within(s.heap, r, Marked(s))
  }

  lemma ClearAll(s: State, c: set<Ref>)
    requires Converged(s) && Bounded(s, c)
    ensures var s' := ClearWeak(s);
            && Tri(s', {}) && Bounded(s', c) && Clears(s, s')
            && (forall r :: r in s.weak ==> EntriesClear(s', r, false) && SlotsClear(s', r))
            && (forall r :: r in s.allweak ==>
                EntriesClear(s', r, false) && SlotsClear(s', r) && EntriesClear(s', r, true))
            && (forall r :: r in s.ephemeron ==> EntriesClear(s', r, true))
  {
    assert WeakOk(s);
    hide Tri, Bounded, Clears, ClearValues, ClearKeys, EntriesClear, SlotsClear;
    var s1 := ClearValues(s, s.weak);
    ClearValuesOk(s, s.weak, c);
    ClearedLists(s, s1);
    TablesStay(s, s1, s.allweak);
    TablesStay(s, s1, s.ephemeron);
    var s2 := ClearValues(s1, s1.allweak);
    ClearValuesOk(s1, s1.allweak, c);
    ClearedLists(s1, s2);
    TablesStay(s1, s2, s.allweak);
    TablesStay(s1, s2, s.ephemeron);
    var s3 := ClearKeys(s2, s2.ephemeron);
    ClearKeysOk(s2, s2.ephemeron, c);
    ClearedLists(s2, s3);
    TablesStay(s2, s3, s.allweak);
    var s4 := ClearKeys(s3, s3.allweak);
    ClearKeysOk(s3, s3.allweak, c);
    ClearsTrans(s, s1, s2);
    ClearsTrans(s2, s3, s4);
    ClearsTrans(s, s2, s4);
    ClearsTrans(s1, s2, s4);
    forall r
      ensures EntriesClear(s1, r, false) ==> EntriesClear(s4, r, false)
      ensures EntriesClear(s2, r, false) ==> EntriesClear(s4, r, false)
      ensures EntriesClear(s3, r, true) ==> EntriesClear(s4, r, true)
      ensures SlotsClear(s1, r) ==> SlotsClear(s4, r)
      ensures SlotsClear(s2, r) ==> SlotsClear(s4, r)
    {
      ClearStays(s1, s4, r);
      ClearStays(s2, s4, r);
      ClearStays(s3, s4, r);
    }
  }

  lemma ClearedLists(s: State, s': State)
    requires Clears(s, s')
    ensures SameLists(s, s')
  {
  }

  lemma ClearWeakOk(s: State, c: set<Ref>)
    requires Converged(s) && Bounded(s, c)
    ensures var s' := ClearWeak(s);
            Tri(s', {}) && Bounded(s', c) && Clears(s, s') && MarkedClosed(s')
  {
    ClearAll(s, c);
    var s' := ClearWeak(s);
    hide ClearWeak, EntriesClear, SlotsClear, AgainDone, WeakDone, EphDone, AllWeakDone, SettledTable, Bounded;
    ClearedLists(s, s');
    assert s'.gray == [] by { assert Clears(s, s'); }
    hide Clears;
    forall r | r in Marked(s')
      ensures Within(s'.heap, r, Marked(s'))
    {
      if s'.color[r] == Black {
        assert BlackOk(s', r);
      } else if s'.heap[r].OpenUpval? {
        assert OpensOk(s', {});
      } else {
        GrayListed(s', r);
        DoneClears(s, s', r);
        CleanTable(s', r);
        AgainWithin(s', r);
      }
    }
  }

  lemma AgainWithin(s: State, r: Ref)
    requires r in s.heap
    ensures AgainDone(s, r) ==> Within(s.heap, r, Marked(s))
  {
  }
}

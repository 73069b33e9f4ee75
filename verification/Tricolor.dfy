/** What marking keeps: no black object refers to a white one, and every gray object is in exactly
    one gray list, so that it is visited before marking ends. */
module Tricolor {
  import opened CollectorState

  function GrayLists(s: State): multiset<Ref> {
    multiset(s.gray) + multiset(s.grayagain) + multiset(s.weak) + multiset(s.allweak) + multiset(s.ephemeron)
  }

  /** The kinds of objects that wait in a gray list. */
  predicate Listable(o: Object) {
    o.Table? || o.Closure? || o.Proto? || o.Thread?
  }

  predicate BlackOk(s: State, r: Ref)
    requires r in s.heap
  {
    && !s.heap[r].Thread? && !s.heap[r].OpenUpval?
    && Within(s.heap, r, Marked(s))
    && (s.heap[r].Table? ==> KeysIn(s.heap[r].hash, Marked(s)))
  }

  /** Gray objects that must be in a list; `busy` ones are being visited or held aside. */
  predicate Waiting(s: State, busy: set<Ref>, r: Ref)
    requires s.color.Keys == s.heap.Keys
  {
    r in s.heap && s.color[r] == Gray && !s.heap[r].OpenUpval? && r !in busy
  }

  /** While marking, white is the current white: nothing is dead. */
  ghost predicate ColorsOk(s: State) {
    && s.color.Keys == s.heap.Keys
    && forall r :: r in s.color && s.color[r].White? ==> s.color[r].bit == s.current
  }

  ghost predicate ListsOk(s: State, busy: set<Ref>)
    requires s.color.Keys == s.heap.Keys
  {
    && (forall r :: GrayLists(s)[r] == if Waiting(s, busy, r) then 1 else 0)
    && (forall r :: Waiting(s, busy, r) ==> Listable(s.heap[r]))
  }

  predicate AllTables(s: State, list: seq<Ref>) {
    forall i :: 0 <= i < |list| ==> list[i] in s.heap && s.heap[list[i]].Table?
  }

  /** The tables waiting to be cleared; those in `allweak` are not visited again. */
  ghost predicate WeakOk(s: State) {
    && AllTables(s, s.weak) && AllTables(s, s.ephemeron) && AllTables(s, s.allweak)
    && forall i :: 0 <= i < |s.allweak| ==> In(s.heap[s.allweak[i]].meta, Marked(s))
  }

  ghost predicate BlacksOk(s: State, busy: set<Ref>) {
    forall r :: r in s.heap && r in s.color && s.color[r] == Black && r !in busy ==> BlackOk(s, r)
  }

  /** Open upvalues are never black; the value of a marked one is marked, too, unless a stack write
      since then has changed it. */
  ghost predicate OpensOk(s: State, busy: set<Ref>) {
    forall r :: r in s.heap && r in s.color && s.heap[r].OpenUpval? && !s.color[r].White? ==>
      s.color[r] == Gray && (r in busy || In(Slot(s.heap, s.heap[r].thread, s.heap[r].idx), Marked(s)))
  }

  ghost predicate NoDangling(s: State) {
    forall r :: r in s.heap ==> Within(s.heap, r, s.heap.Keys)
  }

  ghost predicate Tri(s: State, busy: set<Ref>) {
    && ColorsOk(s) && ListsOk(s, busy) && WeakOk(s) && BlacksOk(s, busy) && OpensOk(s, busy) && NoDangling(s)
    && busy <= Marked(s)
  }

  /** Nothing is marked beyond a closed set. */
  ghost predicate Bounded(s: State, c: set<Ref>) {
    Closed(s.heap, c) && Marked(s) <= c
  }

  lemma MarkedGrows(s: State, s': State)
    requires Marks(s, s')
    ensures Marked(s) <= Marked(s')
  {
  }

  lemma BlackStays(s: State, s': State, r: Ref)
    requires r in s.heap && s'.heap == s.heap && BlackOk(s, r) && Marked(s) <= Marked(s')
    ensures BlackOk(s', r)
  {
    WithinMono(s.heap, r, Marked(s), Marked(s'));
  }

  lemma BlacksStay(s: State, s': State, busy: set<Ref>, busy': set<Ref>)
    requires BlacksOk(s, busy) && s'.heap == s.heap && Marked(s) <= Marked(s')
    requires forall x :: x in s'.heap && x in s'.color && s'.color[x] == Black && x !in busy' ==>
               (x in s.color && s.color[x] == Black && x !in busy) || BlackOk(s', x)
    ensures BlacksOk(s', busy')
  {
    hide BlackOk;
    forall x | x in s'.heap && x in s'.color && s'.color[x] == Black && x !in busy'
      ensures BlackOk(s', x)
    {
      if x in s.color && s.color[x] == Black && x !in busy { BlackStays(s, s', x); }
    }
  }

  lemma OpensStay(s: State, s': State, busy: set<Ref>, busy': set<Ref>)
    requires OpensOk(s, busy) && s'.heap == s.heap && Marked(s) <= Marked(s')
    requires forall x :: x in s'.heap && x in s'.color && s'.heap[x].OpenUpval? && !s'.color[x].White? ==>
               || (s'.color[x] == Gray && x in busy')
               || (x in s.color && s'.color[x] == s.color[x] && (x in busy ==> x in busy'))
    ensures OpensOk(s', busy')
  {
  }

  lemma WeakStays(s: State, s': State)
    requires WeakOk(s) && s'.heap == s.heap && Marked(s) <= Marked(s')
    requires s'.weak == s.weak && s'.allweak == s.allweak && s'.ephemeron == s.ephemeron
    ensures WeakOk(s')
  {
  }

  /** An object that was just marked is busy until it is black or in a list. */
  lemma Pick(s: State, r: Ref, busy: set<Ref>, c: set<Ref>)
    requires Tri(s, busy) && Bounded(s, c) && r in Whites(s) && r in c
    ensures Tri(Paint(s, r, Gray), busy + {r}) && Bounded(Paint(s, r, Gray), c)
    ensures Marked(Paint(s, r, Gray)) == Marked(s) + {r}
  {
    hide BlackOk, BlacksOk, OpensOk, Closed, NoDangling, WeakOk, GrayLists;
    var s1 := Paint(s, r, Gray);
    var busy1 := busy + {r};
    assert Marked(s1) == Marked(s) + {r};
    assert NoDangling(s1) by { DanglingSame(s, s1); }
    BlacksStay(s, s1, busy, busy1);
    OpensStay(s, s1, busy, busy1);
    WeakStays(s, s1);
    assert forall x :: Waiting(s1, busy1, x) == Waiting(s, busy, x);
    GrayListsSame(s, s1);
  }

  lemma DanglingSame(s: State, s': State)
    requires NoDangling(s) && s'.heap == s.heap
    ensures NoDangling(s')
  {
  }

  lemma GrayListsSame(s: State, s': State)
    requires s'.gray == s.gray && s'.grayagain == s.grayagain && s'.weak == s.weak
    requires s'.allweak == s.allweak && s'.ephemeron == s.ephemeron
    ensures GrayLists(s') == GrayLists(s)
  {
  }

  lemma GrayListsPush(s: State, r: Ref)
    ensures GrayLists(s.(gray := [r] + s.gray)) == GrayLists(s) + multiset{r}
    ensures GrayLists(s.(grayagain := [r] + s.grayagain)) == GrayLists(s) + multiset{r}
    ensures GrayLists(s.(weak := [r] + s.weak)) == GrayLists(s) + multiset{r}
    ensures GrayLists(s.(allweak := [r] + s.allweak)) == GrayLists(s) + multiset{r}
    ensures GrayLists(s.(ephemeron := [r] + s.ephemeron)) == GrayLists(s) + multiset{r}
  {
  }

  lemma WaitingMore(s: State, s': State, r: Ref, busy: set<Ref>)
    requires s'.heap == s.heap && s'.color == s.color && s.color.Keys == s.heap.Keys
    requires r in s.heap && r !in busy && s.color[r] == Gray && Listable(s.heap[r])
    requires ListsOk(s, busy + {r}) && GrayLists(s') == GrayLists(s) + multiset{r}
    ensures ListsOk(s', busy)
  {
    hide GrayLists;
    assert forall x :: Waiting(s', busy, x) == (Waiting(s, busy + {r}, x) || x == r);
  }

  /** A busy object whose references are marked turns black. */
  lemma Finish(s: State, r: Ref, busy: set<Ref>, c: set<Ref>)
    requires Tri(s, busy + {r}) && r !in busy && Bounded(s, c)
    requires r in s.heap && BlackOk(s, r)
    ensures Tri(Blacken(s, r), busy) && Bounded(Blacken(s, r), c)
    ensures Marked(Blacken(s, r)) == Marked(s)
  {
    hide BlacksOk, OpensOk, Closed, NoDangling, WeakOk, GrayLists;
    hide BlackOk;
    var s1 := Blacken(s, r);
    assert Marked(s1) == Marked(s);
    BlackStays(s, s1, r);
    assert NoDangling(s1) by { DanglingSame(s, s1); }
    BlacksStay(s, s1, busy + {r}, busy);
    OpensStay(s, s1, busy + {r}, busy);
    WeakStays(s, s1);
    assert forall x :: Waiting(s1, busy, x) == Waiting(s, busy + {r}, x);
    GrayListsSame(s, s1);
  }

  /** An open upvalue whose value is marked needs no more attention. */
  lemma Settle(s: State, r: Ref, busy: set<Ref>, c: set<Ref>)
    requires Tri(s, busy + {r}) && r in s.heap && s.heap[r].OpenUpval?
    requires In(Slot(s.heap, s.heap[r].thread, s.heap[r].idx), Marked(s))
    ensures Tri(s, busy)
  {
    hide BlackOk, Closed, NoDangling, WeakOk, GrayLists;
    assert forall x :: Waiting(s, busy, x) == Waiting(s, busy + {r}, x);
  }

  lemma ListGray(s: State, r: Ref, busy: set<Ref>, c: set<Ref>)
    requires Tri(s, busy + {r}) && r !in busy && Bounded(s, c) && r in s.heap && s.color[r] == Gray
    requires Listable(s.heap[r])
    ensures Tri(s.(gray := [r] + s.gray), busy) && Bounded(s.(gray := [r] + s.gray), c)
  {
    var s1 := s.(gray := [r] + s.gray);
    GrayListsPush(s, r);
    hide BlackOk, BlacksOk, OpensOk, Closed, NoDangling, WeakOk, GrayLists;
    assert Marked(s1) == Marked(s);
    assert NoDangling(s1) by { DanglingSame(s, s1); }
    BlacksStay(s, s1, busy + {r}, busy);
    OpensStay(s, s1, busy + {r}, busy);
    WeakStays(s, s1);
    WaitingMore(s, s1, r, busy);
  }

  /** `reallymarkobject` keeps all of it, and marks only what a closed set contains. */
  lemma {:induction false} MarkOk(s: State, r: Ref, busy: set<Ref>, c: set<Ref>)
    requires Tri(s, busy) && Bounded(s, c) && r in Whites(s) && r in c
    ensures Tri(Mark(s, r), busy) && Bounded(Mark(s, r), c)
    ensures Marks(s, Mark(s, r)) && Load(Mark(s, r)) < Load(s) && r in Marked(Mark(s, r))
    decreases |Whites(s)|, 0
  {
    var s1 := Paint(s, r, Gray);
    var o := s.heap[r];
    var s' := Mark(s, r);
    assert s' == match o
                 case Str(_) => Blacken(s1, r)
                 case Udata(m, e) => Blacken(MarkValue(MarkValue(s1, m), e), r)
                 case Upval(v) => Blacken(MarkValue(s1, v), r)
                 case OpenUpval(t, i) => MarkValue(s1, Slot(s.heap, t, i))
                 case _ => s1.(gray := [r] + s1.gray);
    hide Mark, MarkValue, Load, Blacken, Tri, Bounded, Marks, Within, StrongWithin;
    MarkMarks(s, r);
    PaintWhites(s, r, Gray);
    Pick(s, r, busy, c);
    MarkStarts(s, r, busy, c);
    match o
    case Udata(m, e) =>
      MarkFields(s, r, busy, c);
      MarkValueOk(s1, m, busy + {r}, c);
      var s2 := MarkValue(s1, m);
      MarksHeap(s1, s2);
      MarkValueOk(s2, e, busy + {r}, c);
      var s3 := MarkValue(s2, e);
      MarksHeap(s2, s3);
      BlackUdata(s3, r);
      Finish(s3, r, busy, c);
    case Upval(v) =>
      MarkFields(s, r, busy, c);
      MarkValueOk(s1, v, busy + {r}, c);
      var s2 := MarkValue(s1, v);
      MarksHeap(s1, s2);
      BlackUpval(s2, r);
      Finish(s2, r, busy, c);
    case OpenUpval(t, i) =>
      MarkFields(s, r, busy, c);
      MarkValueOk(s1, Slot(s.heap, t, i), busy + {r}, c);
      MarksHeap(s1, s');
      Settle(s', r, busy, c);
    case Str(_) =>
      BlackString(s1, r);
      Finish(s1, r, busy, c);
    case _ => ListGray(s1, r, busy, c);
  }

  lemma MarkStarts(s: State, r: Ref, busy: set<Ref>, c: set<Ref>)
    requires Tri(s, busy) && r in Whites(s)
    ensures r !in busy && r in s.heap && r in s.color && s.color[r].White?
  {
  }

  lemma MarkFields(s: State, r: Ref, busy: set<Ref>, c: set<Ref>)
    requires Tri(s, busy) && Bounded(s, c) && r in s.heap && r in c
    ensures match s.heap[r]
            case Udata(m, e) => In(m, c) && In(e, c) && In(m, s.heap.Keys) && In(e, s.heap.Keys)
            case Upval(v) => In(v, c) && In(v, s.heap.Keys)
            case OpenUpval(t, i) => In(Slot(s.heap, t, i), c) && In(Slot(s.heap, t, i), s.heap.Keys)
            case _ => true
  {
    assert StrongWithin(s.heap, r, c) && Within(s.heap, r, s.heap.Keys);
  }

  lemma MarksHeap(s: State, s': State)
    requires Marks(s, s')
    ensures s'.heap == s.heap && Marked(s) <= Marked(s')
  {
  }

  lemma BlackUdata(s: State, r: Ref)
    requires r in s.heap && s.heap[r].Udata? && In(s.heap[r].meta, Marked(s)) && In(s.heap[r].env, Marked(s))
    ensures BlackOk(s, r)
  {
  }

  lemma BlackUpval(s: State, r: Ref)
    requires r in s.heap && s.heap[r].Upval? && In(s.heap[r].value, Marked(s))
    ensures BlackOk(s, r)
  {
  }

  lemma BlackString(s: State, r: Ref)
    requires r in s.heap && s.heap[r].Str?
    ensures BlackOk(s, r)
  {
  }

  lemma {:induction false} MarkValueOk(s: State, v: Value, busy: set<Ref>, c: set<Ref>)
    requires Tri(s, busy) && Bounded(s, c) && In(v, c) && In(v, s.heap.Keys)
    ensures Tri(MarkValue(s, v), busy) && Bounded(MarkValue(s, v), c)
    ensures Marks(s, MarkValue(s, v)) && Load(MarkValue(s, v)) <= Load(s) && In(v, Marked(MarkValue(s, v)))
    decreases |Whites(s)|, 1
  {
    assert v.Obj? && !IsWhite(s, v) ==> v.ref in Marked(s);
    hide Tri, Bounded, Mark, Marks, Load;
    if IsWhite(s, v) { MarkOk(s, v.ref, busy, c); } else { MarksRefl(s); }
  }
}

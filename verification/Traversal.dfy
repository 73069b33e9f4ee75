/** Visiting gray objects. */
module Traversal {
  import opened CollectorState

  // ----- shared pieces -----

  function MarkAll(s: State, vs: seq<Value>): State
    decreases |vs|
  {
    if vs == [] then s else MarkAll(MarkValue(s, vs[0]), vs[1..])
  }

  function EntryAt(s: State, r: Ref, i: nat): Entry {
    if r in s.heap && s.heap[r].Table? && i < |s.heap[r].hash| then s.heap[r].hash[i] else Entry(Nil, Nil)
  }

  function SetEntry(s: State, r: Ref, i: nat, e: Entry): State {
    if r in s.heap && s.heap[r].Table? && i < |s.heap[r].hash|
    then s.(heap := s.heap[r := s.heap[r].(hash := s.heap[r].hash[i := e])])
    else s
  }

  /** `removeentry`: an unmarked key of an empty entry is dead. */
  function RemoveEntry(s: State, r: Ref, i: nat): State {
    if EntryAt(s, r, i).val == Nil &&
        IsWhite(s, EntryAt(s, r, i).key) then SetEntry(s, r, i, Entry(DeadKey, Nil)) else s
  }

  /** `iscleared`: strings count as values, so they get marked instead. */
  function Cleared(s: State, v: Value): (State, bool) {
    if !v.Obj? then (s, false)
    else if IsString(s, v) then (MarkValue(s, v), false)
    else (s, IsWhite(s, v))
  }

  /** `black2gray` */
  function Regray(s: State, r: Ref): State {
    if r in s.heap && r in s.color then Paint(s, r, Gray) else s
  }

  function LinkAgain(s: State, r: Ref): State { s.(grayagain := [r] + s.grayagain) }
  function LinkWeak(s: State, r: Ref): State { s.(weak := [r] + s.weak) }
  function LinkAllWeak(s: State, r: Ref): State { s.(allweak := [r] + s.allweak) }
  function LinkEphemeron(s: State, r: Ref): State { s.(ephemeron := [r] + s.ephemeron) }

  // ----- tables -----

  function WeakValueEntries(s: State, r: Ref, i: nat, n: nat, clears: bool): (State, bool)
    decreases n - i
  {
    if i >= n then (s, clears)
    else
      var (s1, c1) := WeakValueEntry(s, r, i, clears);
      WeakValueEntries(s1, r, i + 1, n, c1)
  }

  function WeakValueEntry(s: State, r: Ref, i: nat, clears: bool): (State, bool) {
    var e := EntryAt(s, r, i);
    if e.val == Nil then (RemoveEntry(s, r, i), clears)
    else
      var s1 := MarkValue(s, e.key);
      if clears then (s1, clears) else Cleared(s1, e.val)
  }

  function TraverseWeakValue(s: State, r: Ref): State
    requires r in s.heap && s.heap[r].Table?
  {
    var (s1, clears) := WeakValueEntries(s, r, 0, |s.heap[r].hash|, s.heap[r].arr != []);
    if clears then LinkWeak(s1, r) else LinkAgain(s1, r)
  }

  /** What the traversal of an ephemeron table found: an object it marked, an unmarked key,
      an unmarked key with an unmarked value. */
  datatype Found = Found(marked: bool, clears: bool, prop: bool)

  function EphemeronArray(s: State, vs: seq<Value>, f: Found): (State, Found)
    decreases |vs|
  {
    if vs == [] then (s, f)
    else if IsWhite(s, vs[0]) then EphemeronArray(Mark(s, vs[0].ref), vs[1..], f.(marked := true))
    else EphemeronArray(s, vs[1..], f)
  }

  function EphemeronEntry(s: State, r: Ref, i: nat, f: Found): (State, Found) {
    var e := EntryAt(s, r, i);
    if e.val == Nil then (RemoveEntry(s, r, i), f)
    else
      var (s1, cleared) := Cleared(s, e.key);
      if cleared then (s1, f.(clears := true, prop := f.prop || IsWhite(s1, e.val)))
      else if IsWhite(s1, e.val) then (Mark(s1, e.val.ref), f.(marked := true))
      else (s1, f)
  }

  function EphemeronEntries(s: State, r: Ref, i: nat, n: nat, f: Found): (State, Found)
    decreases n - i
  {
    if i >= n then (s, f)
    else
      var (s1, f1) := EphemeronEntry(s, r, i, f);
      EphemeronEntries(s1, r, i + 1, n, f1)
  }

  function TraverseEphemeron(s: State, r: Ref): (State, bool)
    requires r in s.heap && s.heap[r].Table?
  {
    var (s1, f1) := EphemeronArray(s, s.heap[r].arr, Found(false, false, false));
    var (s2, f) := EphemeronEntries(s1, r, 0, |s.heap[r].hash|, f1);
    (EphemeronLink(s2, r, f), f.marked)
  }

  /** The list in which the table waits: to be visited again, to be cleared, or neither. */
  function EphemeronLink(s: State, r: Ref, f: Found): State {
    if s.phase != Atomic || f.prop then LinkEphemeron(s, r)
    else if f.clears then LinkAllWeak(s, r)
    else LinkAgain(s, r)
  }

  function StrongEntry(s: State, r: Ref, i: nat): State {
    var e := EntryAt(s, r, i);
    if e.val == Nil then RemoveEntry(s, r, i) else MarkValue(MarkValue(s, e.key), e.val)
  }

  function StrongEntries(s: State, r: Ref, i: nat, n: nat): State
    decreases n - i
  {
    if i >= n then s else StrongEntries(StrongEntry(s, r, i), r, i + 1, n)
  }

  function TraverseStrong(s: State, r: Ref): State
    requires r in s.heap && s.heap[r].Table?
  {
    StrongEntries(MarkAll(s, s.heap[r].arr), r, 0, |s.heap[r].hash|)
  }

  function TraverseTable(s: State, r: Ref): State
    requires r in s.heap && s.heap[r].Table?
  {
    MarkValueMarks(s, s.heap[r].meta);
    var s1 := MarkValue(s, s.heap[r].meta);
    match s.heap[r].mode
    case Strong => TraverseStrong(s1, r)
    case WeakValues => TraverseWeakValue(Regray(s1, r), r)
    case WeakKeys => TraverseEphemeron(Regray(s1, r), r).0
    case AllWeak => LinkAllWeak(Regray(s1, r), r)
  }

  // ----- other objects -----

  /** The cache does not keep its closure. */
  function TraverseProto(s: State, r: Ref): State
    requires r in s.heap && s.heap[r].Proto?
  {
    var p := s.heap[r];
    var s1 := if IsWhite(s, p.cache) then s.(heap := s.heap[r := p.(cache := Nil)]) else s;
    MarkAll(s1, p.refs)
  }

  /** The part of the stack above `top` is not in use; the last traversal clears it. */
  function TraverseStack(s: State, r: Ref): State
    requires r in s.heap && s.heap[r].Thread?
  {
    var n := Used(s.heap[r]);
    var s1 := MarkAll(s, s.heap[r].stack[..n]);
    if s.phase == Atomic then ClearAbove(s1, r) else s1
  }

  function Used(o: Object): nat
    requires o.Thread?
    ensures Used(o) <= |o.stack|
  {
    if o.top <= |o.stack| then o.top else |o.stack|
  }

  function ClearAbove(s: State, r: Ref): State {
    if r in s.heap && s.heap[r].Thread?
    then s.(heap := s.heap[r := s.heap[r].(stack := Truncated(s.heap[r]))])
    else s
  }

  function Truncated(o: Object): seq<Value>
    requires o.Thread?
  {
    o.stack[..Used(o)] + seq(|o.stack| - Used(o), _ => Nil)
  }

  /** `propagatemark`: the first gray object turns black; threads and weak tables stay gray. */
  function PropagateMark(s: State): State
    requires s.gray != []
  {
    var r := s.gray[0];
    var s1 := Blacken(s, r).(gray := s.gray[1..]);
    if r !in s1.heap then s1
    else
      match s1.heap[r]
      case Table(_, _, _, _) => TraverseTable(s1, r)
      case Closure(refs) => MarkAll(s1, refs)
      case Thread(_, _, _) => TraverseStack(Regray(LinkAgain(s1, r), r), r)
      case Proto(_, _) => TraverseProto(s1, r)
      case _ => s1
  }

  // ----- what a traversal may change -----

  /** An empty entry may lose its key. */
  predicate QuietEntry(e: Entry, e': Entry) {
    e' == e || (e.val == Nil && e' == Entry(DeadKey, Nil))
  }

  predicate Quiet(o: Object, o': Object) {
    match o
    case Table(_, _, _, hash) =>
      && o'.Table? && o' == o.(hash := o'.hash) && |o'.hash| == |hash|
      && forall i :: 0 <= i < |hash| ==> QuietEntry(hash[i], o'.hash[i])
    case Proto(_, _) => o' == o || o' == o.(cache := Nil)
    case Thread(stack, top, _) =>
      && o'.Thread? && o' == o.(stack := o'.stack) && |o'.stack| == |stack|
      && forall i :: 0 <= i < |stack| ==> o'.stack[i] == stack[i] || (i >= top && o'.stack[i] == Nil)
    case _ => o' == o
  }

  ghost predicate QuietHeap(h: map<Ref, Object>, h': map<Ref, Object>) {
    && h'.Keys == h.Keys
    && forall r :: r in h ==> Quiet(h[r], h'[r])
  }

  ghost predicate Recolors(s: State, s': State) {
    && s'.color.Keys == s.color.Keys
    && forall r :: r in s.color && !s.color[r].White? ==> r in s'.color && !s'.color[r].White?
  }

  /** A visit marks objects and clears what nobody can miss; it does not touch anything else. */
  ghost predicate Visits(s: State, s': State) {
    && s' == s.(heap := s'.heap, color := s'.color, gray := s'.gray, grayagain := s'.grayagain,
                weak := s'.weak, allweak := s'.allweak, ephemeron := s'.ephemeron)
    && QuietHeap(s.heap, s'.heap)
    && Recolors(s, s')
    && |Whites(s')| <= |Whites(s)| && Load(s') <= Load(s)
  }

  /** The same, whatever happened to the gray lists. */
  ghost predicate Changes(s: State, s': State) {
    && s' == s.(heap := s'.heap, color := s'.color, gray := s'.gray, grayagain := s'.grayagain,
                weak := s'.weak, allweak := s'.allweak, ephemeron := s'.ephemeron)
    && QuietHeap(s.heap, s'.heap)
    && Recolors(s, s')
  }

  lemma ChangesTrans(a: State, b: State, c: State)
    requires Changes(a, b) && Changes(b, c)
    ensures Changes(a, c)
  {
    hide Quiet;
    forall r | r in a.heap
      ensures Quiet(a.heap[r], c.heap[r])
    {
      QuietTrans(a.heap[r], b.heap[r], c.heap[r]);
    }
  }

  lemma VisitsChanges(s: State, s': State)
    requires Visits(s, s')
    ensures Changes(s, s')
  {
  }

  lemma ListsChange(s: State, s': State)
    requires s' ==
        s.(gray := s'.gray, grayagain := s'.grayagain, weak := s'.weak, allweak := s'.allweak,
        ephemeron := s'.ephemeron)
    ensures Changes(s, s')
  {
  }

  /** Only the main gray list may have grown. */
  predicate SameLists(s: State, s': State) {
    s'.grayagain == s.grayagain && s'.weak == s.weak && s'.allweak == s.allweak && s'.ephemeron == s.ephemeron
  }

  lemma QuietTrans(a: Object, b: Object, c: Object)
    requires Quiet(a, b) && Quiet(b, c)
    ensures Quiet(a, c)
  {
  }

  lemma VisitsTrans(a: State, b: State, c: State)
    requires Visits(a, b) && Visits(b, c)
    ensures Visits(a, c)
  {
    hide Quiet, Load, Whites;
    forall r | r in a.heap
      ensures Quiet(a.heap[r], c.heap[r])
    {
      QuietTrans(a.heap[r], b.heap[r], c.heap[r]);
    }
  }

  lemma VisitsRefl(s: State)
    ensures Visits(s, s)
  {
  }

  lemma WhitesFewer(s: State, s': State)
    requires s'.heap.Keys == s.heap.Keys && Recolors(s, s')
    ensures Whites(s') <= Whites(s) && |Whites(s')| <= |Whites(s)|
  {
    assert Whites(s') <= Whites(s);
    SubsetSize(Whites(s'), Whites(s));
  }

  lemma {:induction false} SubsetSize(a: set<Ref>, b: set<Ref>)
    requires a <= b
    ensures |a| <= |b|
    ensures |a| == |b| ==> a == b
  {
    if a != {} {
      var x :| x in a;
      SubsetSize(a - {x}, b - {x});
    }
  }

  lemma MarksVisits(s: State, s': State)
    requires Marks(s, s') && Load(s') <= Load(s)
    ensures Visits(s, s')
  {
    WhitesFewer(s, s');
  }

  lemma {:induction false} MarkAllVisits(s: State, vs: seq<Value>)
    ensures Visits(s, MarkAll(s, vs)) && SameLists(s, MarkAll(s, vs)) && MarkAll(s, vs).heap == s.heap
    ensures MarkAll(s, vs) == s.(color := MarkAll(s, vs).color, gray := MarkAll(s, vs).gray)
    decreases |vs|
  {
    hide Visits;
    if vs == [] {
      VisitsRefl(s);
    } else {
      var s1 := MarkValue(s, vs[0]);
      MarkValueVisits(s, vs[0]);
      MarkAllVisits(s1, vs[1..]);
      VisitsTrans(s, s1, MarkAll(s, vs));
    }
  }

  lemma MarkValueVisits(s: State, v: Value)
    ensures Visits(s, MarkValue(s, v)) && SameLists(s, MarkValue(s, v))
    ensures MarkValue(s, v) == s.(color := MarkValue(s, v).color, gray := MarkValue(s, v).gray)
  {
    MarkValueMarks(s, v);
    MarksVisits(s, MarkValue(s, v));
  }

  /** A change of heap that a traversal may make. */
  lemma QuietVisits(s: State, h: map<Ref, Object>)
    requires QuietHeap(s.heap, h)
    ensures Visits(s, s.(heap := h))
  {
    assert Whites(s.(heap := h)) == Whites(s);
  }

  lemma RemoveEntryVisits(s: State, r: Ref, i: nat)
    ensures Visits(s, RemoveEntry(s, r, i)) && SameLists(s, RemoveEntry(s, r, i))
  {
    var s' := RemoveEntry(s, r, i);
    QuietVisits(s, s'.heap);
  }

  lemma ClearedVisits(s: State, v: Value)
    ensures Visits(s, Cleared(s, v).0) && SameLists(s, Cleared(s, v).0)
    ensures Cleared(s, v).0.gray == s.gray
  {
    StringMarked(s, v);
    hide Visits, MarkValue;
    MarkValueVisits(s, v);
    VisitsRefl(s);
  }

  lemma StringMarked(s: State, v: Value)
    ensures IsString(s, v) ==> MarkValue(s, v).gray == s.gray
  {
  }

  lemma {:induction false} StrongEntriesVisit(s: State, r: Ref, i: nat, n: nat)
    ensures Visits(s, StrongEntries(s, r, i, n)) && SameLists(s, StrongEntries(s, r, i, n))
    decreases n - i
  {
    hide Visits;
    if i < n {
      StrongEntryVisits(s, r, i);
      StrongEntriesVisit(StrongEntry(s, r, i), r, i + 1, n);
      VisitsTrans(s, StrongEntry(s, r, i), StrongEntries(s, r, i, n));
    } else {
      VisitsRefl(s);
    }
  }

  lemma StrongEntryVisits(s: State, r: Ref, i: nat)
    ensures Visits(s, StrongEntry(s, r, i)) && SameLists(s, StrongEntry(s, r, i))
  {
    hide Visits;
    var e := EntryAt(s, r, i);
    RemoveEntryVisits(s, r, i);
    MarkValueVisits(s, e.key);
    var s1 := MarkValue(s, e.key);
    MarkValueVisits(s1, e.val);
    VisitsTrans(s, s1, MarkValue(s1, e.val));
  }

  lemma WeakValueEntryVisits(s: State, r: Ref, i: nat, clears: bool)
    ensures Visits(s, WeakValueEntry(s, r, i, clears).0) && SameLists(s, WeakValueEntry(s, r, i, clears).0)
  {
    hide Visits;
    var e := EntryAt(s, r, i);
    RemoveEntryVisits(s, r, i);
    MarkValueVisits(s, e.key);
    var s1 := MarkValue(s, e.key);
    ClearedVisits(s1, e.val);
    VisitsTrans(s, s1, Cleared(s1, e.val).0);
  }

  lemma {:induction false} WeakValueEntriesVisit(s: State, r: Ref, i: nat, n: nat, clears: bool)
    ensures Visits(s, WeakValueEntries(s, r, i, n, clears).0) && SameLists(s, WeakValueEntries(s, r, i, n, clears).0)
    decreases n - i
  {
    hide Visits;
    if i < n {
      var (s1, c1) := WeakValueEntry(s, r, i, clears);
      WeakValueEntryVisits(s, r, i, clears);
      WeakValueEntriesVisit(s1, r, i + 1, n, c1);
      VisitsTrans(s, s1, WeakValueEntries(s, r, i, n, clears).0);
    } else {
      VisitsRefl(s);
    }
  }

  lemma MarkVisits(s: State, r: Ref)
    requires r in Whites(s)
    ensures Visits(s, Mark(s, r)) && SameLists(s, Mark(s, r)) && |Whites(Mark(s, r))| < |Whites(s)|
    ensures Mark(s, r).heap == s.heap
  {
    MarkMarks(s, r);
    MarksVisits(s, Mark(s, r));
  }

  lemma {:induction false} EphemeronArrayVisits(s: State, vs: seq<Value>, f: Found)
    ensures var (s', f') := EphemeronArray(s, vs, f);
            && Visits(s, s') && SameLists(s, s') && s'.heap == s.heap && f' == f.(marked := f'.marked)
            && (f'.marked && !f.marked ==> |Whites(s')| < |Whites(s)|)
            && (f'.marked == f.marked == false ==> s' == s)
            && (f.marked ==> f'.marked)
    decreases |vs|
  {
    var (s', f') := EphemeronArray(s, vs, f);
    if vs == [] {
      VisitsRefl(s);
    } else if IsWhite(s, vs[0]) {
      var s1 := Mark(s, vs[0].ref);
      MarkVisits(s, vs[0].ref);
      EphemeronArrayVisits(s1, vs[1..], f.(marked := true));
      VisitsTrans(s, s1, s');
    } else {
      EphemeronArrayVisits(s, vs[1..], f);
    }
  }

  lemma EphemeronEntryVisits(s: State, r: Ref, i: nat, f: Found)
    ensures var (s', f') := EphemeronEntry(s, r, i, f);
            && Visits(s, s') && SameLists(s, s')
            && (f'.marked && !f.marked ==> |Whites(s')| < |Whites(s)|)
            && (f.marked ==> f'.marked) && (f.clears ==> f'.clears) && (f.prop ==> f'.prop)
            && (!f'.marked ==> s'.gray == s.gray)
  {
    hide Visits;
    var e := EntryAt(s, r, i);
    RemoveEntryVisits(s, r, i);
    ClearedVisits(s, e.key);
    var (s1, cleared) := Cleared(s, e.key);
    if e.val != Nil && !cleared && IsWhite(s1, e.val) {
      MarkVisits(s1, e.val.ref);
      VisitsTrans(s, s1, Mark(s1, e.val.ref));
      VisitsWhites(s, s1);
    }
  }

  lemma VisitsWhites(s: State, s': State)
    requires Visits(s, s')
    ensures |Whites(s')| <= |Whites(s)| && Load(s') <= Load(s)
    ensures s'.phase == s.phase && s'.heap.Keys == s.heap.Keys
    ensures forall r :: r in s.heap ==> Quiet(s.heap[r], s'.heap[r])
  {
  }

  lemma {:induction false} EphemeronEntriesVisit(s: State, r: Ref, i: nat, n: nat, f: Found)
    ensures var (s', f') := EphemeronEntries(s, r, i, n, f);
            && Visits(s, s') && SameLists(s, s')
            && (f'.marked && !f.marked ==> |Whites(s')| < |Whites(s)|)
            && (f.marked ==> f'.marked)
            && (!f'.marked ==> s'.gray == s.gray)
    decreases n - i
  {
    hide Visits, EphemeronEntry;
    var (s', f') := EphemeronEntries(s, r, i, n, f);
    if i < n {
      var (s1, f1) := EphemeronEntry(s, r, i, f);
      EphemeronEntryVisits(s, r, i, f);
      EphemeronEntriesVisit(s1, r, i + 1, n, f1);
      VisitsTrans(s, s1, s');
      VisitsWhites(s, s1);
      VisitsWhites(s1, s');
    } else {
      VisitsRefl(s);
    }
  }

  lemma LinkVisits(s: State, r: Ref)
    ensures Visits(s, LinkAgain(s, r)) && Visits(s, LinkWeak(s, r))
    ensures Visits(s, LinkAllWeak(s, r)) && Visits(s, LinkEphemeron(s, r))
  {
    assert Whites(LinkAgain(s, r)) == Whites(s) && Whites(LinkWeak(s, r)) == Whites(s);
    assert Whites(LinkAllWeak(s, r)) == Whites(s) && Whites(LinkEphemeron(s, r)) == Whites(s);
  }

  lemma RegrayVisits(s: State, r: Ref)
    ensures Visits(s, Regray(s, r)) && SameLists(s, Regray(s, r)) && Regray(s, r).heap == s.heap
  {
    WhitesFewer(s, Regray(s, r));
  }

  lemma TraverseStrongVisits(s: State, r: Ref)
    requires r in s.heap && s.heap[r].Table?
    ensures Visits(s, TraverseStrong(s, r)) && SameLists(s, TraverseStrong(s, r))
  {
    hide Visits;
    var s1 := MarkAll(s, s.heap[r].arr);
    MarkAllVisits(s, s.heap[r].arr);
    StrongEntriesVisit(s1, r, 0, |s.heap[r].hash|);
    VisitsTrans(s, s1, TraverseStrong(s, r));
  }

  lemma TraverseWeakValueVisits(s: State, r: Ref)
    requires r in s.heap && s.heap[r].Table?
    ensures Visits(s, TraverseWeakValue(s, r))
  {
    hide Visits;
    var s1 := WeakValueEntries(s, r, 0, |s.heap[r].hash|, s.heap[r].arr != []).0;
    WeakValueEntriesVisit(s, r, 0, |s.heap[r].hash|, s.heap[r].arr != []);
    LinkVisits(s1, r);
    VisitsTrans(s, s1, TraverseWeakValue(s, r));
  }

  lemma TraverseEphemeronVisits(s: State, r: Ref)
    requires r in s.heap && s.heap[r].Table?
    ensures var (s', marked) := TraverseEphemeron(s, r);
            Visits(s, s') && (marked ==> |Whites(s')| < |Whites(s)|) && (!marked ==> s'.gray == s.gray)
  {
    hide Visits;
    var (s', marked) := TraverseEphemeron(s, r);
    var (s1, f1) := EphemeronArray(s, s.heap[r].arr, Found(false, false, false));
    EphemeronArrayVisits(s, s.heap[r].arr, Found(false, false, false));
    var (s2, f) := EphemeronEntries(s1, r, 0, |s.heap[r].hash|, f1);
    EphemeronEntriesVisit(s1, r, 0, |s.heap[r].hash|, f1);
    LinkVisits(s2, r);
    VisitsTrans(s, s1, s2);
    VisitsTrans(s, s2, s');
    VisitsWhites(s, s1);
    VisitsWhites(s1, s2);
    VisitsWhites(s2, s');
  }

  lemma TraverseTableVisits(s: State, r: Ref)
    requires r in s.heap && s.heap[r].Table?
    ensures Visits(s, TraverseTable(s, r))
  {
    var s1 := MarkValue(s, s.heap[r].meta);
    MarkValueMarks(s, s.heap[r].meta);
    hide Visits, MarkValue, TraverseStrong, TraverseWeakValue, TraverseEphemeron;
    MarkValueVisits(s, s.heap[r].meta);
    var s2 := Regray(s1, r);
    RegrayVisits(s1, r);
    VisitsTrans(s, s1, s2);
    match s.heap[r].mode
    case Strong =>
      TraverseStrongVisits(s1, r);
      VisitsTrans(s, s1, TraverseStrong(s1, r));
    case WeakValues =>
      TraverseWeakValueVisits(s2, r);
      VisitsTrans(s, s2, TraverseWeakValue(s2, r));
    case WeakKeys =>
      TraverseEphemeronVisits(s2, r);
      VisitsTrans(s, s2, TraverseEphemeron(s2, r).0);
    case AllWeak =>
      LinkVisits(s2, r);
      VisitsTrans(s, s2, LinkAllWeak(s2, r));
  }

  lemma TraverseProtoVisits(s: State, r: Ref)
    requires r in s.heap && s.heap[r].Proto?
    ensures Visits(s, TraverseProto(s, r)) && SameLists(s, TraverseProto(s, r))
  {
    var p := s.heap[r];
    var s1 := if IsWhite(s, p.cache) then s.(heap := s.heap[r := p.(cache := Nil)]) else s;
    QuietVisits(s, s1.heap);
    MarkAllVisits(s1, p.refs);
    hide Visits;
    VisitsTrans(s, s1, MarkAll(s1, p.refs));
  }

  lemma ClearAboveVisits(s: State, r: Ref)
    ensures Visits(s, ClearAbove(s, r)) && SameLists(s, ClearAbove(s, r))
  {
    QuietVisits(s, ClearAbove(s, r).heap);
  }

  lemma TraverseStackVisits(s: State, r: Ref)
    requires r in s.heap && s.heap[r].Thread?
    ensures Visits(s, TraverseStack(s, r)) && SameLists(s, TraverseStack(s, r))
  {
    hide Visits;
    var s1 := MarkAll(s, s.heap[r].stack[..Used(s.heap[r])]);
    MarkAllVisits(s, s.heap[r].stack[..Used(s.heap[r])]);
    ClearAboveVisits(s1, r);
    VisitsTrans(s, s1, ClearAbove(s1, r));
  }

  lemma TakeGray(s: State)
    requires s.gray != []
    ensures var s1 := Blacken(s, s.gray[0]).(gray := s.gray[1..]);
            Visits(s, s1) && SameLists(s, s1) && Load(s1) < Load(s) && s1.heap == s.heap
  {
    var s1 := Blacken(s, s.gray[0]).(gray := s.gray[1..]);
    WhitesFewer(s, s1);
  }

  /** Every visit leaves less to do, so marking ends. */
  lemma PropagateMarkVisits(s: State)
    requires s.gray != []
    ensures Visits(s, PropagateMark(s)) && Load(PropagateMark(s)) < Load(s)
  {
    hide Visits, Load, TraverseTable, TraverseStack, TraverseProto, MarkAll, Blacken;
    TakeGray(s);
    var r := s.gray[0];
    var s1 := Blacken(s, r).(gray := s.gray[1..]);
    if r in s1.heap {
      match s1.heap[r]
      case Table(_, _, _, _) => TraverseTableVisits(s1, r);
      case Closure(refs) => MarkAllVisits(s1, refs);
      case Thread(_, _, _) =>
        var s2 := LinkAgain(s1, r);
        LinkVisits(s1, r);
        RegrayVisits(s2, r);
        TraverseStackVisits(Regray(s2, r), r);
        VisitsTrans(s1, s2, Regray(s2, r));
        VisitsTrans(s1, Regray(s2, r), PropagateMark(s));
      case Proto(_, _) => TraverseProtoVisits(s1, r);
      case _ => VisitsRefl(s1);
    } else {
      VisitsRefl(s1);
    }
    VisitsWhites(s1, PropagateMark(s));
    VisitsTrans(s, s1, PropagateMark(s));
  }

  function PropagateAll(s: State): State
    decreases Load(s)
  {
    if s.gray == [] then s
    else
      PropagateMarkVisits(s);
      PropagateAll(PropagateMark(s))
  }

  lemma {:induction false} PropagateAllVisits(s: State)
    ensures Visits(s, PropagateAll(s)) && PropagateAll(s).gray == []
    decreases Load(s)
  {
    hide Visits, PropagateMark;
    if s.gray == [] {
      VisitsRefl(s);
    } else {
      PropagateMarkVisits(s);
      PropagateAllVisits(PropagateMark(s));
      VisitsTrans(s, PropagateMark(s), PropagateAll(s));
    }
  }
}

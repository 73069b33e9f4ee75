/** The heap as the incremental collector sees it: objects, colours, gray lists and sweep lists. */
module CollectorState {

  type Ref = nat

  /** Values without a collectable object are all alike here. `DeadKey` replaces the key of an empty
      entry whose object was not marked. */
  datatype Value = Nil | Plain | DeadKey | Obj(ref: Ref)

  datatype Entry = Entry(key: Value, val: Value)

  datatype Mode = Strong | WeakValues | WeakKeys | AllWeak

  /** `refs`: a closure's prototype and upvalues, a prototype's constants, names and nested prototypes.
      An open upvalue stands for a slot of its thread's stack. */
  datatype Object =
    | Str(short: bool)
    | Udata(meta: Value, env: Value)
    | Closure(refs: seq<Value>)
    | Proto(refs: seq<Value>, cache: Value)
    | Table(mode: Mode, meta: Value, arr: seq<Value>, hash: seq<Entry>)
    | Thread(stack: seq<Value>, top: nat, open: seq<Ref>)
    | OpenUpval(thread: Ref, idx: nat)
    | Upval(value: Value)

  datatype Color = White(bit: bool) | Gray | Black

  datatype Phase = Pause | Propagate | Atomic | SweepString | SweepUdata | Sweep

  /** `before` and `after`: the list of all objects up to the sweep pointer and from it on; likewise
      `strBefore` and `strAfter` for the short strings. */
  datatype State = State(
    heap: map<Ref, Object>, color: map<Ref, Color>,
    gray: seq<Ref>, grayagain: seq<Ref>, weak: seq<Ref>, allweak: seq<Ref>, ephemeron: seq<Ref>,
    current: bool, phase: Phase,
    main: Ref, running: Ref, globals: seq<Value>, uvhead: seq<Ref>,
    strBefore: seq<Ref>, strAfter: seq<Ref>, before: seq<Ref>, after: seq<Ref>)

  // ----- colours -----

  predicate IsWhite(s: State, v: Value) {
    v.Obj? && v.ref in s.heap && v.ref in s.color && s.color[v.ref].White?
  }

  predicate IsString(s: State, v: Value) {
    v.Obj? && v.ref in s.heap && s.heap[v.ref].Str?
  }

  function Whites(s: State): set<Ref> {
    set r | r in s.heap && r in s.color && s.color[r].White?
  }

  function Marked(s: State): set<Ref> {
    set r | r in s.heap && r in s.color && !s.color[r].White?
  }

  /** `isdead`: the object has the white of the previous cycle. */
  predicate Dead(s: State, r: Ref) {
    r in s.color && s.color[r] == White(!s.current)
  }

  function Alive(s: State): set<Ref> {
    set r | r in s.heap && r in s.color && s.color[r] != White(!s.current)
  }

  // ----- references -----

  function Slot(h: map<Ref, Object>, t: Ref, i: nat): Value {
    if t in h && h[t].Thread? && i < |h[t].stack| then h[t].stack[i] else Nil
  }

  predicate In(v: Value, p: set<Ref>) {
    v.Obj? ==> v.ref in p
  }

  predicate AllIn(vs: seq<Value>, p: set<Ref>) {
    forall i :: 0 <= i < |vs| ==> In(vs[i], p)
  }

  predicate EntryIn(e: Entry, p: set<Ref>) {
    e.val != Nil ==> In(e.key, p) && In(e.val, p)
  }

  predicate EntriesIn(es: seq<Entry>, p: set<Ref>) {
    forall i :: 0 <= i < |es| ==> EntryIn(es[i], p)
  }

  predicate KeysIn(es: seq<Entry>, p: set<Ref>) {
    forall i :: 0 <= i < |es| ==> In(es[i].key, p)
  }

  /** Every object that a program holding `r` can reach in one step is in `p`, weak references
      and the closure cache of a prototype included. The keys of empty entries count, too, except in
      all-weak tables, whose entries are not visited. */
  predicate Within(h: map<Ref, Object>, r: Ref, p: set<Ref>)
    requires r in h
  {
    match h[r]
    case Str(_) => true
    case Udata(m, e) => In(m, p) && In(e, p)
    case Closure(refs) => AllIn(refs, p)
    case Proto(refs, cache) => AllIn(refs, p) && In(cache, p)
    case Table(mode, m, arr, hash) =>
      In(m, p) && AllIn(arr, p) && EntriesIn(hash, p) && (mode.AllWeak? || KeysIn(hash, p))
    case Thread(stack, _, _) => AllIn(stack, p)
    case OpenUpval(t, i) => In(Slot(h, t, i), p)
    case Upval(v) => In(v, p)
  }

  /** A key that keeps its entry: not an object, a string, or an object in `p`. */
  predicate Keeps(h: map<Ref, Object>, k: Value, p: set<Ref>) {
    k.Obj? ==> k.ref in p || (k.ref in h && h[k.ref].Str?)
  }

  /** The references of `r` that keep objects alive lead into `p`: those of a weak table only as far as
      its mode says, where an ephemeron entry counts once its key is in `p`. */
  predicate StrongWithin(h: map<Ref, Object>, r: Ref, p: set<Ref>)
    requires r in h
  {
    match h[r]
    case Proto(refs, _) => AllIn(refs, p)
    case Thread(stack, top, _) => forall i :: 0 <= i < top && i < |stack| ==> In(stack[i], p)
    case Table(mode, m, arr, hash) =>
      && In(m, p)
      && (mode.Strong? ==> AllIn(arr, p) && EntriesIn(hash, p))
      && (mode.WeakValues? ==> forall i :: 0 <= i < |hash| && hash[i].val != Nil ==> In(hash[i].key, p))
      && (mode.WeakKeys? ==>
            AllIn(arr, p)
            && forall i :: 0 <= i < |hash| && hash[i].val != Nil && Keeps(h, hash[i].key, p) ==> In(hash[i].val, p))
    case _ => Within(h, r, p)
  }

  /** Closed under the references that keep objects alive. Strings in weak tables count as values,
      so all strings are in. */
  ghost predicate Closed(h: map<Ref, Object>, c: set<Ref>) {
    && (forall r :: r in h && h[r].Str? ==> r in c)
    && (forall r :: r in h && r in c ==> StrongWithin(h, r, c))
  }

  lemma WithinMono(h: map<Ref, Object>, r: Ref, p: set<Ref>, q: set<Ref>)
    requires r in h && Within(h, r, p) && p <= q
    ensures Within(h, r, q)
  {
  }

  // ----- marking (`lgc.c`) -----

  function Paint(s: State, r: Ref, c: Color): State {
    s.(color := s.color[r := c])
  }

  /** What marking may change: white objects get marked, and the gray list grows. */
  ghost predicate Marks(s: State, s': State) {
    && s' == s.(color := s'.color, gray := s'.gray)
    && s'.color.Keys == s.color.Keys
    && (forall r :: r in s.color ==> s'.color[r] == s.color[r] || (s.color[r].White? && !s'.color[r].White?))
  }

  /** Twice the white objects and the gray list together: what is left to do. */
  function Load(s: State): nat {
    2 * |Whites(s)| + |s.gray|
  }

  lemma PaintWhites(s: State, r: Ref, c: Color)
    requires r in s.heap && r in s.color && !c.White?
    ensures Whites(Paint(s, r, c)) == Whites(s) - {r}
    ensures |Whites(Paint(s, r, c))| == |Whites(s)| - if r in Whites(s) then 1 else 0
  {
    assert Whites(Paint(s, r, c)) == Whites(s) - {r};
  }

  /** `reallymarkobject` */
  function Mark(s: State, r: Ref): (s': State)
    requires r in Whites(s)
    ensures |Whites(s')| < |Whites(s)|
    decreases |Whites(s)|, 0
  {
    PaintWhites(s, r, Gray);
    var s1 := Paint(s, r, Gray);
    match s.heap[r]
    case Str(_) => Blacken(s1, r)
    case Udata(m, e) => Blacken(MarkValue(MarkValue(s1, m), e), r)
    case Upval(v) => Blacken(MarkValue(s1, v), r)
    case OpenUpval(t, i) => MarkValue(s1, Slot(s.heap, t, i))
    case _ => s1.(gray := [r] + s1.gray)
  }

  /** `gray2black` */
  function Blacken(s: State, r: Ref): (s': State)
    ensures |Whites(s')| <= |Whites(s)|
  {
    if r in s.heap && r in s.color then PaintWhites(s, r, Black); Paint(s, r, Black) else s
  }

  /** `markvalue`, `markobject` */
  function MarkValue(s: State, v: Value): (s': State)
    ensures |Whites(s')| <= |Whites(s)|
    decreases |Whites(s)|, 1
  {
    if IsWhite(s, v) then Mark(s, v.ref) else s
  }

  lemma MarksTrans(a: State, b: State, c: State)
    requires Marks(a, b) && Marks(b, c)
    ensures Marks(a, c)
  {
  }

  lemma GrayMarks(s: State, r: Ref)
    requires r in Whites(s)
    ensures Marks(s, Paint(s, r, Gray)) && Load(Paint(s, r, Gray)) == Load(s) - 2
    ensures Paint(s, r, Gray).color[r] == Gray
  {
    PaintWhites(s, r, Gray);
  }

  lemma BlackenMarks(s: State, s': State, r: Ref)
    requires r in Whites(s) && Marks(s, s') && r in s'.color && !s'.color[r].White?
    ensures Marks(s, Blacken(s', r)) && Load(Blacken(s', r)) == Load(s')
  {
    PaintWhites(s', r, Black);
  }

  lemma {:induction false} MarkMarks(s: State, r: Ref)
    requires r in Whites(s)
    ensures Marks(s, Mark(s, r)) && Load(Mark(s, r)) < Load(s)
    decreases |Whites(s)|, 0
  {
    var s1 := Paint(s, r, Gray);
    var o := s.heap[r];
    var s' := Mark(s, r);
    assert s' == match o
                 case Str(_) => Blacken(s1, r)
                 case Udata(m, e) => Blacken(MarkValue(MarkValue(s1, m), e), r)
                 case Upval(v) => Blacken(MarkValue(s1, v), r)
                 case OpenUpval(t, i) => MarkValue(s1, Slot(s.heap, t, i))
                 case _ => s1.(gray := [r] + s1.gray);
    hide Mark, MarkValue, Load, Blacken, Marks;
    PaintWhites(s, r, Gray);
    GrayMarks(s, r);
    match o
    case Str(_) => BlackenMarks(s, s1, r);
    case Udata(m, e) =>
      MarkValueMarks(s1, m);
      var s2 := MarkValue(s1, m);
      MarkValueMarks(s2, e);
      MarksTrans(s1, s2, MarkValue(s2, e));
      MarksTrans(s, s1, MarkValue(s2, e));
      StaysMarked(s1, MarkValue(s2, e), r);
      BlackenMarks(s, MarkValue(s2, e), r);
    case Upval(v) =>
      MarkValueMarks(s1, v);
      MarksTrans(s, s1, MarkValue(s1, v));
      StaysMarked(s1, MarkValue(s1, v), r);
      BlackenMarks(s, MarkValue(s1, v), r);
    case OpenUpval(t, i) =>
      MarkValueMarks(s1, Slot(s.heap, t, i));
      MarksTrans(s, s1, s');
    case _ => ToGray(s, s1, r);
  }

  lemma ToGray(s: State, s1: State, r: Ref)
    requires Marks(s, s1)
    ensures Marks(s, s1.(gray := [r] + s1.gray)) && Load(s1.(gray := [r] + s1.gray)) == Load(s1) + 1
  {
    assert Whites(s1.(gray := [r] + s1.gray)) == Whites(s1);
  }

  lemma StaysMarked(s: State, s': State, r: Ref)
    requires Marks(s, s') && r in s.color && !s.color[r].White?
    ensures r in s'.color && !s'.color[r].White?
  {
  }

  lemma {:induction false} MarkValueMarks(s: State, v: Value)
    ensures Marks(s, MarkValue(s, v)) && Load(MarkValue(s, v)) <= Load(s)
    decreases |Whites(s)|, 1
  {
    hide Mark, Load, Marks;
    if IsWhite(s, v) { MarkMarks(s, v.ref); } else { MarksRefl(s); }
  }

  lemma MarksRefl(s: State)
    ensures Marks(s, s)
  {
  }
}

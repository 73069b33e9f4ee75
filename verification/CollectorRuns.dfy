/** Runs of a program with the collector: every operation and every collector step keeps the invariant,
    so no object that the program can reach is ever freed; and a cycle leaves no garbage. */
module CollectorRuns {
  import opened CollectorState
  import opened Tricolor
  import opened Traversal
  import opened Propagation
  import opened AtomicPhase
  import opened Sweeping
  import opened CollectorInvariant
  import opened SweepingProof
  import opened CollectorSteps
  import opened Mutator
  import opened Programs
  import opened OpenUpvals

  /** What a program may do. Results are held in a stack slot. */
  datatype Op =
    | New(r: Ref, o: Object, late: bool, t: Ref, i: nat)
    | StoreSlot(t: Ref, i: nat, v: Value)
    | GrowStack(t: Ref, n: nat)
    | SetTop(t: Ref, n: nat)
    | SetArray(t: Ref, i: nat, v: Value)
    | SetValue(t: Ref, i: nat, v: Value)
    | NewKey(t: Ref, i: nat, v: Value)
    | Rehash(t: Ref, arr: seq<Value>, hash: seq<Entry>)
    | SetMeta(t: Ref, v: Value, mode: Mode)
    | SetMode(t: Ref, mode: Mode)
    | SetUdataMeta(t: Ref, v: Value)
    | SetUdataEnv(t: Ref, v: Value)
    | SetClosureRef(t: Ref, i: nat, v: Value)
    | SetUpval(t: Ref, v: Value)
    | AddConstant(t: Ref, v: Value)
    | CacheClosure(t: Ref, v: Value)
    | SetGlobal(i: nat, v: Value)
    | Resume(t: Ref)
    | Intern(r: Ref, t: Ref, i: nat)
    | Capture(t: Ref, level: nat, r: Ref, d: Ref, i: nat)
    | Close(t: Ref, level: nat)

  ghost predicate Has(s: State, v: Value) {
    v.Obj? ==> Accessible(s, v.ref)
  }

  predicate IsThread(s: State, t: Ref) { t in s.heap && s.heap[t].Thread? }
  predicate IsTable(s: State, t: Ref) { t in s.heap && s.heap[t].Table? }
  predicate HasSlot(s: State, t: Ref, i: nat) { IsThread(s, t) && i < |s.heap[t].stack| }

  /** The contents of a new object. */
  function Contents(o: Object): seq<Value> {
    match o
    case Str(_) => []
    case Udata(m, e) => [m, e]
    case Closure(refs) => refs
    case Proto(refs, cache) => refs + [cache]
    case Table(_, m, arr, hash) =>
        [m] + arr + seq(|hash|, i requires 0 <= i < |hash| => hash[i].key) +
        seq(|hash|, i requires 0 <= i < |hash| => hash[i].val)
    case Thread(stack, _, _) => stack
    case OpenUpval(_, _) => []
    case Upval(v) => [v]
  }

  /** A new metatable for a table that will not be visited again must be marked, and then the table
      must stay all-weak; the collector does not see to either. */
  predicate SafeMeta(s: State, t: Ref, m: Value, mode: Mode) {
    s.phase == Propagate && t in s.allweak ==> mode.AllWeak? && In(m, Marked(s))
  }

  /** An all-weak table that is given another mode must not have an empty entry whose key has been freed:
      the collector leaves such keys in all-weak tables, but looks at them in all others. */
  predicate SafeMode(s: State, t: Ref, mode: Mode) {
    t in s.heap && s.heap[t].Table? && s.heap[t].mode.AllWeak? && !mode.AllWeak? ==> KeysIn(s.heap[t].hash, Alive(s))
  }

  /** `luaH_resize`: values move between the two parts, where their keys are numbers; only entries with values are kept.
      The parts get other sizes, and what is new in them is empty. */
  ghost predicate Moved(o: Object, o': Object)
    requires o.Table?
  {
    && o'.Table? && o'.meta == o.meta && o'.mode == o.mode
    && (forall j :: 0 <= j < |o'.arr| ==> o'.arr[j] == Nil || o'.arr[j] in o.arr || Entry(Plain, o'.arr[j]) in o.hash)
    && (forall j :: 0 <= j < |o'.hash| ==>
          || o'.hash[j] == Entry(Nil, Nil)
          || (o'.hash[j] in o.hash && o'.hash[j].val != Nil)
          || (o'.hash[j].key == Plain && o'.hash[j].val in o.arr))
  }

  /** The program holds what it uses. It may give a table any metatable and any mode but in the two cases
      in which the collector does not cope, see `SetMetaExact`. */
  ghost predicate Enabled(s: State, op: Op) {
    match op
    case New(r, o, _, t, i) =>
      && Accessible(s, t) && HasSlot(s, t, i) && r !in s.heap && !o.OpenUpval? && (o.Thread? ==> o.open == [])
      && forall j :: 0 <= j < |Contents(o)| ==> Has(s, Contents(o)[j])
    case StoreSlot(t, i, v) => Accessible(s, t) && HasSlot(s, t, i) && Has(s, v)
    case GrowStack(t, _) => Accessible(s, t) && IsThread(s, t)
    case SetTop(t, n) => Accessible(s, t) && IsThread(s, t) && n <= |s.heap[t].stack|
    case SetArray(t, i, v) => Accessible(s, t) && IsTable(s, t) && i < |s.heap[t].arr| && Has(s, v)
    case SetValue(t, i, v) =>
      Accessible(s, t) && IsTable(s, t) && i < |s.heap[t].hash| && Has(s, s.heap[t].hash[i].key) && Has(s, v)
    case NewKey(t, i, v) =>
      && Accessible(s, t) && IsTable(s, t) && i <= |s.heap[t].hash| && Has(s, v)
      && (i < |s.heap[t].hash| ==> s.heap[t].hash[i].val == Nil)
    case Rehash(t, arr, hash) =>
      Accessible(s, t) && IsTable(s, t) && Moved(s.heap[t], s.heap[t].(arr := arr, hash := hash))
    case SetMeta(t, m, mode) =>
      Accessible(s, t) && IsTable(s, t) && Has(s, m) && SafeMeta(s, t, m, mode) && SafeMode(s, t, mode)
    case SetMode(t, mode) =>
      IsTable(s, t) && (t in Alive(s) ==> SafeMeta(s, t, s.heap[t].meta, mode) && SafeMode(s, t, mode))
    case SetUdataMeta(t, v) => Accessible(s, t) && t in s.heap && s.heap[t].Udata? && Has(s, v)
    case SetUdataEnv(t, v) => Accessible(s, t) && t in s.heap && s.heap[t].Udata? && Has(s, v)
    case SetClosureRef(t, i, v) =>
        Accessible(s, t) && t in s.heap && s.heap[t].Closure? && i < |s.heap[t].refs| && Has(s, v)
    case SetUpval(t, v) =>
      && Accessible(s, t) && t in s.heap && Has(s, v)
      && (s.heap[t].Upval? || s.heap[t].OpenUpval?)
    case AddConstant(t, v) => Accessible(s, t) && t in s.heap && s.heap[t].Proto? && Has(s, v)
    case CacheClosure(t, v) => Accessible(s, t) && t in s.heap && s.heap[t].Proto? && Has(s, v)
    case SetGlobal(i, v) => i < |s.globals| && Has(s, v)
    case Resume(t) => Accessible(s, t) && IsThread(s, t)
    case Intern(r, t, i) => InStringTable(s.heap, r) && Accessible(s, t) && HasSlot(s, t, i)
    case Capture(t, level, r, d, i) =>
      Accessible(s, t) && HasSlot(s, t, level) && r !in s.heap && Accessible(s, d) && HasSlot(s, d, i)
    case Close(t, _) => Accessible(s, t) && IsThread(s, t)
  }

  function GrownStack(o: Object, n: nat): Object
    requires o.Thread?
  {
    o.(stack := o.stack + seq(n, _ => Nil))
  }

  /** `luaH_newkey`: the key takes a free node. */
  function WithKey(o: Object, i: nat, k: Value): Object
    requires o.Table? && i <= |o.hash|
  {
    if i < |o.hash| then o.(hash := o.hash[i := Entry(k, Nil)]) else o.(hash := o.hash + [Entry(k, Nil)])
  }

  ghost function Apply(s: State, op: Op): State
    requires Enabled(s, op)
  {
    match op
    case New(r, o, late, t, i) =>
      var s1 := Allocate(s, r, o, late);
      SetSlot(s1, t, i, Obj(r))
    case StoreSlot(t, i, v) => SetSlot(s, t, i, v)
    case GrowStack(t, n) => Put(s, t, GrownStack(s.heap[t], n))
    case SetTop(t, n) => Put(s, t, s.heap[t].(top := n))
    case SetArray(t, i, v) => BarrierBack(Put(s, t, s.heap[t].(arr := s.heap[t].arr[i := v])), t, v)
    case SetValue(t, i, v) =>
      BarrierBack(Put(s, t, s.heap[t].(hash := s.heap[t].hash[i := s.heap[t].hash[i].(val := v)])), t, v)
    case NewKey(t, i, v) => BarrierBack(Put(s, t, WithKey(s.heap[t], i, v)), t, v)
    case Rehash(t, arr, hash) => Put(s, t, s.heap[t].(arr := arr, hash := hash))
    case SetMeta(t, m, mode) => BarrierBack(Put(s, t, s.heap[t].(meta := m, mode := mode)), t, m)
    case SetMode(t, mode) => Put(s, t, s.heap[t].(mode := mode))
    case SetUdataMeta(t, v) => Barrier(Put(s, t, Udata(v, s.heap[t].env)), t, v)
    case SetUdataEnv(t, v) => Barrier(Put(s, t, Udata(s.heap[t].meta, v)), t, v)
    case SetClosureRef(t, i, v) => Barrier(Put(s, t, Closure(s.heap[t].refs[i := v])), t, v)
    case SetUpval(t, v) =>
      if s.heap[t].Upval? then Barrier(Put(s, t, Upval(v)), t, v)
      else WriteOpen(s, t, v)
    case AddConstant(t, v) => Barrier(Put(s, t, Proto(s.heap[t].refs + [v], s.heap[t].cache)), t, v)
    case CacheClosure(t, v) => SetCache(s, t, v)
    case SetGlobal(i, v) => s.(globals := s.globals[i := v])
    case Resume(t) => s.(running := t)
    case Intern(r, t, i) => SetSlot(Resurrect(s, r), t, i, Obj(r))
    case Capture(t, level, r, d, i) => HoldCaptured(s, t, level, r, d, i)
    case Close(t, level) => CloseUpvals(s, t, level)
  }

  function WriteOpen(s: State, uv: Ref, v: Value): State
    requires uv in s.heap && s.heap[uv].OpenUpval?
  {
    var t, i := s.heap[uv].thread, s.heap[uv].idx;
    if HasSlot(s, t, i) then SetSlot(s, t, i, v) else s
  }

  function HoldCaptured(s: State, t: Ref, level: nat, r: Ref, d: Ref, i: nat): State
    requires t in s.heap && s.heap[t].Thread?
  {
    var (s1, uv) := FindUpval(s, t, level, r);
    if HasSlot(s1, d, i) then SetSlot(s1, d, i, Obj(uv)) else s1
  }

  // ----- what each operation adds -----

  lemma SlotAdds(s: State, t: Ref, i: nat, v: Value)
    requires HasSlot(s, t, i)
    ensures Adds(s, t, s.heap[t].(stack := s.heap[t].stack[i := v]), [v])
  {
    forall p: set<Ref> | AllIn([v], p) && Within(s.heap, t, p)
      ensures Within(s.heap[t := s.heap[t].(stack := s.heap[t].stack[i := v])], t, p)
    {
      assert In([v][0], p);
    }
  }

  lemma ThreadAdds(s: State, t: Ref, o': Object)
    requires IsThread(s, t) && o'.Thread? && o'.open == s.heap[t].open && |o'.stack| >= |s.heap[t].stack|
    requires forall j :: 0 <= j < |o'.stack| ==>
        if j < |s.heap[t].stack| then o'.stack[j] == s.heap[t].stack[j] else o'.stack[j] == Nil
    ensures Adds(s, t, o', [])
  {
    forall p: set<Ref> | AllIn([], p) && Within(s.heap, t, p)
      ensures Within(s.heap[t := o'], t, p)
    {
      forall j | 0 <= j < |o'.stack|
        ensures In(o'.stack[j], p)
      {
        if j < |s.heap[t].stack| { assert In(s.heap[t].stack[j], p); }
      }
    }
  }

  /** A store into a table: what it holds was there before or is in `vs`. */
  ghost predicate FromTable(o: Object, o': Object, vs: seq<Value>) {
    && o.Table? && o'.Table?
    && (o'.meta == o.meta || o'.meta in vs)
    && (o.mode.AllWeak? && !o'.mode.AllWeak? ==> forall j :: 0 <= j < |o.hash| ==> o.hash[j].key in vs)
    && (forall j :: 0 <= j < |o'.arr| ==> o'.arr[j] in vs || o'.arr[j] in o.arr)
    && (forall j :: 0 <= j < |o'.hash| ==>
          || o'.hash[j] in o.hash
          || (o'.hash[j].val == Nil && o'.hash[j].key in vs)
          || (o'.hash[j].val in vs && o'.hash[j].key in vs && exists e :: e in o.hash && e.key == o'.hash[j].key))
  }

  lemma TableAdds(s: State, t: Ref, o': Object, vs: seq<Value>)
    requires IsTable(s, t) && FromTable(s.heap[t], o', vs)
    ensures Adds(s, t, o', vs)
  {
    var o := s.heap[t];
    forall p: set<Ref> | AllIn(vs, p) && Within(s.heap, t, p)
      ensures Within(s.heap[t := o'], t, p)
    {
      TableWithin(o, o', vs, p);
    }
    forall p: set<Ref> | AllIn(vs, p) && KeysIn(o.hash, p)
      ensures KeysIn(o'.hash, p)
    {
      TableKeys(o, o', vs, p);
    }
  }

  lemma TableKeys(o: Object, o': Object, vs: seq<Value>, p: set<Ref>)
    requires FromTable(o, o', vs) && AllIn(vs, p) && KeysIn(o.hash, p)
    ensures KeysIn(o'.hash, p)
  {
    assert forall e :: e in o.hash ==> In(e.key, p);
    assert forall v :: v in vs ==> In(v, p);
  }

  lemma TableWithin(o: Object, o': Object, vs: seq<Value>, p: set<Ref>)
    requires FromTable(o, o', vs) && AllIn(vs, p)
    requires In(o.meta, p) && AllIn(o.arr, p) && EntriesIn(o.hash, p) && (o.mode.AllWeak? || KeysIn(o.hash, p))
    ensures In(o'.meta, p) && AllIn(o'.arr, p) && EntriesIn(o'.hash, p) && (o'.mode.AllWeak? || KeysIn(o'.hash, p))
  {
    assert forall x :: x in o.arr ==> In(x, p);
    assert forall v :: v in vs ==> In(v, p);
    assert forall e :: e in o.hash ==> EntryIn(e, p);
    if !o'.mode.AllWeak? {
      assert o.mode.AllWeak? ==> forall j :: 0 <= j < |o.hash| ==> o.hash[j].key in vs;
      TableKeys(o, o', vs, p);
    }
  }

  lemma ArrayFrom(o: Object, i: nat, v: Value)
    requires o.Table? && i < |o.arr|
    ensures FromTable(o, o.(arr := o.arr[i := v]), [v])
  {
  }

  lemma ValueFrom(o: Object, i: nat, v: Value)
    requires o.Table? && i < |o.hash|
    ensures FromTable(o, o.(hash := o.hash[i := o.hash[i].(val := v)]), [v, o.hash[i].key])
  {
    assert o.hash[i] in o.hash;
    assert v in [v, o.hash[i].key] && o.hash[i].key in [v, o.hash[i].key];
  }

  lemma KeyFrom(o: Object, i: nat, k: Value)
    requires o.Table? && i <= |o.hash|
    ensures FromTable(o, WithKey(o, i, k), [k])
  {
    assert k in [k];
  }

  function Keys(hash: seq<Entry>): (ks: seq<Value>)
    ensures |ks| == |hash|
  {
    seq(|hash|, i requires 0 <= i < |hash| => hash[i].key)
  }

  /** With another mode the keys of empty entries become references of the table. */
  lemma MetaFrom(o: Object, m: Value, mode: Mode)
    requires o.Table?
    ensures FromTable(o, o.(meta := m, mode := mode), [m] + Keys(o.hash))
    ensures o.mode.AllWeak? ==> mode.AllWeak? ==> FromTable(o, o.(meta := m, mode := mode), [m])
  {
    var vs := [m] + Keys(o.hash);
    assert vs[0] == m;
    assert forall j :: 0 <= j < |o.hash| ==> vs[1 + j] == o.hash[j].key;
  }

  lemma OtherAdds(s: State, t: Ref, o': Object, v: Value)
    requires t in s.heap && SameKind(s.heap[t], o')
    requires match s.heap[t]
             case Udata(m, e) => (o'.meta == m || o'.meta == v) && (o'.env == e || o'.env == v)
             case Closure(refs) => forall j :: 0 <= j < |o'.refs| ==> o'.refs[j] == v || o'.refs[j] in refs
             case Proto(refs, cache) =>
                 (forall j :: 0 <= j < |o'.refs| ==> o'.refs[j] == v || o'.refs[j] in refs) && o'.cache == cache
             case Upval(_) => o'.value == v
             case _ => false
    ensures Adds(s, t, o', [v])
  {
    forall p: set<Ref> | AllIn([v], p) && Within(s.heap, t, p)
      ensures Within(s.heap[t := o'], t, p)
    {
      assert In([v][0], p);
      if s.heap[t].Closure? || s.heap[t].Proto? {
        assert forall x :: x in s.heap[t].refs ==> In(x, p);
      }
    }
  }

  // ----- every operation keeps the invariant -----

  lemma HasAlive(s: State, v: Value)
    requires Inv(s) && Has(s, v)
    ensures In(v, Alive(s))
  {
    if v.Obj? { AccessibleAlive(s, v.ref); }
  }

  /** The `__mode` of a metatable is written, which changes the mode of every table that has it, held by the program or
      not. No barrier sees that. */
  lemma SetModeOk(s: State, t: Ref, mode: Mode)
    requires Inv(s) && IsTable(s, t)
    requires t in Alive(s) ==> SafeMeta(s, t, s.heap[t].meta, mode) && SafeMode(s, t, mode)
    ensures Inv(Put(s, t, s.heap[t].(mode := mode)))
  {
    var m := s.heap[t].meta;
    var o' := s.heap[t].(meta := m, mode := mode);
    assert o' == s.heap[t].(mode := mode);
    if t !in Alive(s) {
      NotAliveDead(s, t);
      NoneDead(s, t);
      hide Inv;
      DeadModeOk(s, t, mode);
    } else {
      TableMeta(s, t);
      if s.phase == Propagate {
        SetMetaOk(s, t, m, mode);
      } else {
        hide Inv;
        RestModeOk(s, t, mode);
      }
    }
  }

  /** The metatable of a table is alive, and while marking that of a black table is marked. */
  lemma TableMeta(s: State, t: Ref)
    requires Inv(s) && t in Alive(s) && IsTable(s, t)
    ensures In(s.heap[t].meta, Alive(s)) && (s.phase == Propagate && IsBlack(s, t) ==> !IsWhite(s, s.heap[t].meta))
  {
    assert Within(s.heap, t, Alive(s)) by { assert Live(s); }
    if s.phase == Propagate && IsBlack(s, t) {
      assert Marking(s) && BlacksOk(s, GrayOpens(s)) && BlackOk(s, t);
    }
  }

  lemma RestModeOk(s: State, t: Ref, mode: Mode)
    requires Inv(s) && t in Alive(s) && IsTable(s, t) && s.phase != Propagate && SafeMode(s, t, mode)
    requires In(s.heap[t].meta, Alive(s))
    ensures Inv(Put(s, t, s.heap[t].(mode := mode)))
  {
    var m := s.heap[t].meta;
    var o' := s.heap[t].(meta := m, mode := mode);
    assert o' == s.heap[t].(mode := mode);
    MetaFrom(s.heap[t], m, mode);
    var vs := if s.heap[t].mode.AllWeak? && !mode.AllWeak? then [m] + Keys(s.heap[t].hash) else [m];
    assert FromTable(s.heap[t], o', vs) && AllIn(vs, Alive(s));
    assert KeepsWeak(s, t, o');
    TableAdds(s, t, o', vs);
    hide Inv, Adds, FromTable, KeepsWeak, AllIn;
    StoredRest(s, t, o', vs);
  }

  lemma DeadModeOk(s: State, t: Ref, mode: Mode)
    requires Inv(s) && IsSweeping(s.phase) && IsTable(s, t) && t !in Alive(s)
    ensures Inv(Put(s, t, s.heap[t].(mode := mode)))
  {
    var o' := s.heap[t].(mode := mode);
    var s' := Put(s, t, o');
    assert Wf(s, {}) && Live(s) && Swept(s, {});
    PutStructure(s, t, o');
    PutAlive(s, t, o');
    PutPhase(s, t, o');
    PutNeverBlack(s, t, o') by { assert NeverBlack(s.heap, s.color); }
    DeadModeLive(s, t, mode);
    hide UpvalsOk, PlacesOk, SameStructure, Live, Swept, NeverBlack;
    StructureWf(s, s', {});
  }

  lemma DeadModeLive(s: State, t: Ref, mode: Mode)
    requires Live(s) && IsTable(s, t) && t !in Alive(s)
    ensures Live(Put(s, t, s.heap[t].(mode := mode)))
  {
    var s' := Put(s, t, s.heap[t].(mode := mode));
    assert Alive(s') == Alive(s);
    forall r | r in Alive(s')
      ensures r in s'.heap && Within(s'.heap, r, Alive(s'))
    {
      assert Within(s.heap, r, Alive(s)) && r != t;
    }
  }

  lemma HeldAlive(s: State, t: Ref)
    requires Inv(s) && Accessible(s, t)
    ensures t in Alive(s) && t in s.heap
  {
    AccessibleAlive(s, t);
  }

  lemma OpenNotWeak(s: State, t: Ref, o': Object)
    requires Inv(s) && t in s.heap && !s.heap[t].Table?
    ensures KeepsWeak(s, t, o')
  {
    NotWeak(s, t);
  }

  lemma SlotOk(s: State, t: Ref, i: nat, v: Value)
    requires Inv(s) && t in Alive(s) && HasSlot(s, t, i) && In(v, Alive(s))
    ensures Inv(SetSlot(s, t, i, v))
  {
    var o' := s.heap[t].(stack := s.heap[t].stack[i := v]);
    SlotAdds(s, t, i, v);
    OpenNotWeak(s, t, o');
    OneIn(v, Alive(s));
    hide Inv, Adds, KeepsWeak;
    PlainOk(s, t, o', [v]);
  }

  lemma ResizeOk(s: State, t: Ref, o': Object)
    requires Inv(s) && t in Alive(s) && IsThread(s, t) && o'.Thread? && o'.open == s.heap[t].open
    requires |o'.stack| >= |s.heap[t].stack|
    requires forall j :: 0 <= j < |o'.stack| ==>
        if j < |s.heap[t].stack| then o'.stack[j] == s.heap[t].stack[j] else o'.stack[j] == Nil
    ensures Inv(Put(s, t, o'))
  {
    ThreadAdds(s, t, o');
    OpenNotWeak(s, t, o');
    hide Inv, Adds, KeepsWeak;
    PlainOk(s, t, o', []);
  }

  lemma TableContents(o: Object, p: set<Ref>)
    requires AllIn(Contents(o), p) && o.Table?
    ensures In(o.meta, p) && AllIn(o.arr, p)
    ensures forall j :: 0 <= j < |o.hash| ==> In(o.hash[j].key, p) && In(o.hash[j].val, p)
  {
    var c := Contents(o);
    var a, h := |o.arr|, |o.hash|;
    assert |c| == 1 + a + h + h && c[0] == o.meta;
    forall j | 0 <= j < a
      ensures In(o.arr[j], p)
    {
      assert c[1 + j] == o.arr[j];
    }
    forall j | 0 <= j < h
      ensures In(o.hash[j].key, p) && In(o.hash[j].val, p)
    {
      assert c[1 + a + j] == o.hash[j].key && c[1 + a + h + j] == o.hash[j].val;
    }
  }

  lemma ContentsWithin(h: map<Ref, Object>, r: Ref, o: Object, p: set<Ref>)
    requires AllIn(Contents(o), p) && !o.OpenUpval?
    ensures Within(h[r := o], r, p)
  {
    match o
    case Table(_, m, arr, hash) => TableContents(o, p);
    case Proto(refs, cache) =>
      var c := Contents(o);
      assert forall j :: 0 <= j < |refs| ==> c[j] == refs[j];
      assert c[|refs|] == cache;
    case Udata(m, e) =>
      assert Contents(o)[0] == m && Contents(o)[1] == e;
    case Upval(v) => assert Contents(o)[0] == v;
    case _ =>
  }

  lemma NewOk(s: State, r: Ref, o: Object, late: bool, t: Ref, i: nat)
    requires Inv(s) && Enabled(s, New(r, o, late, t, i))
    ensures Inv(SetSlot(Allocate(s, r, o, late), t, i, Obj(r)))
  {
    hide Inv, Within, Allocate, Contents;
    HeldAlive(s, t);
    forall j | 0 <= j < |Contents(o)|
      ensures In(Contents(o)[j], Alive(s))
    {
      HasAlive(s, Contents(o)[j]);
    }
    ContentsWithin(s.heap, r, o, Alive(s));
    AllocateOk(s, r, o, late);
    SlotOk(Allocate(s, r, o, late), t, i, Obj(r));
  }

  lemma TableOk(s: State, t: Ref, o': Object, vs: seq<Value>, v: Value)
    requires Inv(s) && t in Alive(s) && IsTable(s, t) && FromTable(s.heap[t], o', vs) && AllIn(vs, Alive(s))
    requires KeepsWeak(s, t, o')
    requires s.phase == Propagate ==> OthersMarked(s, t, vs, v)
    ensures Inv(BarrierBack(Put(s, t, o'), t, v))
  {
    TableAdds(s, t, o', vs);
    assert o'.Table?;
    hide Inv, Adds, KeepsWeak, FromTable;
    BackOk(s, t, o', vs, v);
  }

  lemma SameMeta(s: State, t: Ref, o': Object)
    requires Inv(s) && IsTable(s, t) && o'.Table? && o'.meta == s.heap[t].meta && o'.mode == s.heap[t].mode
    ensures KeepsWeak(s, t, o')
  {
    if t in s.allweak && s.phase == Propagate {
      assert Marking(s) && WeakOk(s) && OnlyAllWeak(s);
      var i :| 0 <= i < |s.allweak| && s.allweak[i] == t;
    }
  }

  lemma KeyMarked(s: State, t: Ref, i: nat, v: Value)
    requires Inv(s) && s.phase == Propagate && IsTable(s, t) && i < |s.heap[t].hash|
    ensures OthersMarked(s, t, [v, s.heap[t].hash[i].key], v)
  {
    var k := s.heap[t].hash[i].key;
    assert [v, k][0] == v && [v, k][1] == k;
    if IsBlack(s, t) {
      assert Marking(s) && BlacksOk(s, GrayOpens(s)) && BlackOk(s, t);
    }
  }

  /** Moving entries needs no barrier: a black table refers to marked objects already. */
  lemma RehashOk(s: State, t: Ref, o': Object)
    requires Inv(s) && t in Alive(s) && IsTable(s, t) && Moved(s.heap[t], o')
    ensures Inv(Put(s, t, o'))
  {
    MovedAdds(s, t, o');
    SameMeta(s, t, o');
    hide Inv, Adds, KeepsWeak, Moved;
    PlainOk(s, t, o', []);
  }

  lemma MovedAdds(s: State, t: Ref, o': Object)
    requires IsTable(s, t) && Moved(s.heap[t], o')
    ensures Adds(s, t, o', [])
  {
    var o := s.heap[t];
    forall p: set<Ref> | Within(s.heap, t, p)
      ensures Within(s.heap[t := o'], t, p)
    {
      MovedWithin(o, o', p);
      if !o.mode.AllWeak? { MovedKeys(o, o', p); }
    }
    forall p: set<Ref> | KeysIn(o.hash, p)
      ensures KeysIn(o'.hash, p)
    {
      MovedKeys(o, o', p);
    }
  }

  lemma MovedWithin(o: Object, o': Object, p: set<Ref>)
    requires o.Table? && Moved(o, o') && AllIn(o.arr, p) && EntriesIn(o.hash, p)
    ensures AllIn(o'.arr, p) && EntriesIn(o'.hash, p)
  {
    assert forall x :: x in o.arr ==> In(x, p);
    assert forall e :: e in o.hash ==> EntryIn(e, p);
    forall j | 0 <= j < |o'.arr|
      ensures In(o'.arr[j], p)
    {
      if Entry(Plain, o'.arr[j]) in o.hash { assert EntryIn(Entry(Plain, o'.arr[j]), p); }
    }
  }

  lemma MovedKeys(o: Object, o': Object, p: set<Ref>)
    requires o.Table? && Moved(o, o') && KeysIn(o.hash, p)
    ensures KeysIn(o'.hash, p)
  {
    assert forall e :: e in o.hash ==> In(e.key, p);
  }

  lemma SetArrayOk(s: State, t: Ref, i: nat, v: Value)
    requires Inv(s) && t in Alive(s) && IsTable(s, t) && i < |s.heap[t].arr| && In(v, Alive(s))
    ensures Inv(BarrierBack(Put(s, t, s.heap[t].(arr := s.heap[t].arr[i := v])), t, v))
  {
    var o' := s.heap[t].(arr := s.heap[t].arr[i := v]);
    ArrayFrom(s.heap[t], i, v);
    SameMeta(s, t, o');
    AloneMarked(s, t, v);
    OneIn(v, Alive(s));
    hide Inv, FromTable;
    TableOk(s, t, o', [v], v);
  }

  lemma SetValueOk(s: State, t: Ref, i: nat, v: Value)
    requires Inv(s) && t in Alive(s) && IsTable(s, t) && i < |s.heap[t].hash| && In(v, Alive(s))
    requires In(s.heap[t].hash[i].key, Alive(s))
    ensures Inv(BarrierBack(Put(s, t, s.heap[t].(hash := s.heap[t].hash[i := s.heap[t].hash[i].(val := v)])), t, v))
  {
    hide Inv, FromTable, OthersMarked;
    var o' := s.heap[t].(hash := s.heap[t].hash[i := s.heap[t].hash[i].(val := v)]);
    ValueFrom(s.heap[t], i, v);
    SameMeta(s, t, o');
    if s.phase == Propagate { KeyMarked(s, t, i, v); }
    TableOk(s, t, o', [v, s.heap[t].hash[i].key], v);
  }

  lemma NewKeyOk(s: State, t: Ref, i: nat, v: Value)
    requires Inv(s) && t in Alive(s) && IsTable(s, t) && i <= |s.heap[t].hash| && In(v, Alive(s))
    ensures Inv(BarrierBack(Put(s, t, WithKey(s.heap[t], i, v)), t, v))
  {
    KeyFrom(s.heap[t], i, v);
    SameMeta(s, t, WithKey(s.heap[t], i, v));
    AloneMarked(s, t, v);
    OneIn(v, Alive(s));
    hide Inv, FromTable;
    TableOk(s, t, WithKey(s.heap[t], i, v), [v], v);
  }

  lemma SetMetaOk(s: State, t: Ref, m: Value, mode: Mode)
    requires Inv(s) && t in Alive(s) && IsTable(s, t) && In(m, Alive(s))
    requires SafeMeta(s, t, m, mode) && SafeMode(s, t, mode)
    ensures Inv(BarrierBack(Put(s, t, s.heap[t].(meta := m, mode := mode)), t, m))
  {
    var o' := s.heap[t].(meta := m, mode := mode);
    MetaFrom(s.heap[t], m, mode);
    OneIn(m, Alive(s));
    if s.heap[t].mode.AllWeak? && !mode.AllWeak? {
      var vs := [m] + Keys(s.heap[t].hash);
      assert AllIn(vs, Alive(s));
      if s.phase == Propagate { EachKeyMarked(s, t, m); }
      hide Inv, FromTable, OthersMarked, AllIn;
      TableOk(s, t, o', vs, m);
    } else {
      AloneMarked(s, t, m);
      hide Inv, FromTable;
      TableOk(s, t, o', [m], m);
    }
  }

  lemma EachKeyMarked(s: State, t: Ref, m: Value)
    requires Inv(s) && s.phase == Propagate && IsTable(s, t)
    ensures OthersMarked(s, t, [m] + Keys(s.heap[t].hash), m)
  {
    BlackKeys(s, t);
    hide Inv, Marked;
    if IsBlack(s, t) { KeysAmong(s.heap[t].hash, m, Marked(s)); }
    assert ([m] + Keys(s.heap[t].hash))[0] == m;
  }

  lemma KeysAmong(hash: seq<Entry>, m: Value, p: set<Ref>)
    requires forall j :: 0 <= j < |hash| ==> In(hash[j].key, p)
    ensures forall u :: u in [m] + Keys(hash) ==> u == m || In(u, p)
  {
    var ks := Keys(hash);
    forall u | u in [m] + ks && u != m
      ensures In(u, p)
    {
      var j :| 0 <= j < |ks| && ks[j] == u;
      assert hash[j].key == u;
    }
  }

  lemma BlackKeys(s: State, t: Ref)
    requires Inv(s) && s.phase == Propagate && IsTable(s, t)
    ensures IsBlack(s, t) ==> forall j :: 0 <= j < |s.heap[t].hash| ==> In(s.heap[t].hash[j].key, Marked(s))
  {
    if IsBlack(s, t) {
      assert Marking(s) && BlacksOk(s, GrayOpens(s)) && BlackOk(s, t);
    }
  }

  lemma OtherOk(s: State, t: Ref, o': Object, v: Value)
    requires Inv(s) && t in Alive(s) && t in s.heap && SameKind(s.heap[t], o') && In(v, Alive(s)) && !s.heap[t].Table?
    requires match s.heap[t]
             case Udata(m, e) => (o'.meta == m || o'.meta == v) && (o'.env == e || o'.env == v)
             case Closure(refs) => forall j :: 0 <= j < |o'.refs| ==> o'.refs[j] == v || o'.refs[j] in refs
             case Proto(refs, cache) =>
                 (forall j :: 0 <= j < |o'.refs| ==> o'.refs[j] == v || o'.refs[j] in refs) && o'.cache == cache
             case Upval(_) => o'.value == v
             case _ => false
    ensures Inv(Barrier(Put(s, t, o'), t, v))
  {
    OtherAdds(s, t, o', v);
    OpenNotWeak(s, t, o');
    OneIn(v, Alive(s));
    hide Inv, Adds, KeepsWeak;
    ForwardOk(s, t, o', v);
  }

  /** A write through an open upvalue. Nothing needs to name the thread of the slot: while sweeping it may even
      be dead, and as long as it has not been freed the value lives in its stack. */
  lemma OpenWriteOk(s: State, t: Ref, i: nat, v: Value)
    requires Inv(s) && HasSlot(s, t, i) && In(v, Alive(s))
    ensures Inv(SetSlot(s, t, i, v))
  {
    if t in Alive(s) {
      SlotOk(s, t, i, v);
    } else {
      NotAliveDead(s, t);
      NoneDead(s, t);
      hide Inv;
      DeadSlotOk(s, t, i, v);
    }
  }

  lemma NotAliveDead(s: State, t: Ref)
    requires Inv(s) && t in s.heap && t !in Alive(s)
    ensures Dead(s, t)
  {
  }

  lemma DeadSlotOk(s: State, t: Ref, i: nat, v: Value)
    requires Inv(s) && IsSweeping(s.phase) && HasSlot(s, t, i) && t !in Alive(s) && In(v, Alive(s))
    ensures Inv(SetSlot(s, t, i, v))
  {
    var o' := s.heap[t].(stack := s.heap[t].stack[i := v]);
    var s' := Put(s, t, o');
    assert Wf(s, {}) && Live(s) && Swept(s, {});
    PutStructure(s, t, o');
    PutAlive(s, t, o');
    PutPhase(s, t, o');
    PutNeverBlack(s, t, o') by { assert NeverBlack(s.heap, s.color); }
    DeadSlotLive(s, t, i, v);
    hide UpvalsOk, PlacesOk, SameStructure, Live, Swept, NeverBlack;
    StructureWf(s, s', {});
  }

  lemma DeadSlotLive(s: State, t: Ref, i: nat, v: Value)
    requires Live(s) && HasSlot(s, t, i) && t !in Alive(s) && In(v, Alive(s))
    ensures Live(SetSlot(s, t, i, v))
  {
    var s' := SetSlot(s, t, i, v);
    assert Alive(s') == Alive(s);
    forall r | r in Alive(s')
      ensures r in s'.heap && Within(s'.heap, r, Alive(s'))
    {
      assert Within(s.heap, r, Alive(s)) && r != t;
    }
  }

  lemma SetUpvalOk(s: State, t: Ref, v: Value)
    requires Inv(s) && Enabled(s, SetUpval(t, v))
    ensures Inv(Apply(s, SetUpval(t, v)))
  {
    hide Inv, Accessible;
    HeldAlive(s, t);
    HasAlive(s, v);
    if s.heap[t].Upval? {
      assert Apply(s, SetUpval(t, v)) == Barrier(Put(s, t, Upval(v)), t, v);
      hide Enabled, Apply, Barrier;
      OtherOk(s, t, Upval(v), v);
    } else {
      assert Apply(s, SetUpval(t, v)) == WriteOpen(s, t, v);
      hide Enabled, Apply;
      if HasSlot(s, s.heap[t].thread, s.heap[t].idx) { OpenWriteOk(s, s.heap[t].thread, s.heap[t].idx, v); }
    }
  }

  lemma InternOk(s: State, r: Ref, t: Ref, i: nat)
    requires Inv(s) && InStringTable(s.heap, r) && Accessible(s, t) && HasSlot(s, t, i)
    ensures Inv(SetSlot(Resurrect(s, r), t, i, Obj(r)))
  {
    HeldAlive(s, t);
    hide Inv;
    ResurrectOk(s, r);
    SlotOk(Resurrect(s, r), t, i, Obj(r));
  }

  lemma CaptureOk(s: State, t: Ref, level: nat, r: Ref, d: Ref, i: nat)
    requires Inv(s) && t in Alive(s) && d in Alive(s) && HasSlot(s, t, level) && r !in s.heap
    ensures Inv(HoldCaptured(s, t, level, r, d, i))
  {
    hide Inv, FindUpval, Alive;
    FindUpvalOk(s, t, level, r);
    var (s1, uv) := FindUpval(s, t, level, r);
    if HasSlot(s1, d, i) { SlotOk(s1, d, i, Obj(uv)); }
  }

  lemma ResumeOk(s: State, t: Ref)
    requires Inv(s) && t in Alive(s) && IsThread(s, t)
    ensures Inv(s.(running := t))
  {
    assert AllIn(s.globals, Alive(s)) by { assert RootsAlive(s); }
    hide Inv;
    RootsChange(s, s.(running := t));
  }

  lemma SetGlobalOk(s: State, i: nat, v: Value)
    requires Inv(s) && i < |s.globals| && In(v, Alive(s))
    ensures Inv(s.(globals := s.globals[i := v]))
  {
    assert AllIn(s.globals, Alive(s)) && s.running in Alive(s) && s.running in s.heap && s.heap[s.running].Thread? by {
      assert RootsAlive(s) && Wf(s, {});
    }
    hide Inv;
    RootsChange(s, s.(globals := s.globals[i := v]));
  }

  predicate IsTableOp(op: Op) {
    op.SetArray? || op.SetValue? || op.NewKey? || op.SetMeta?
  }

  predicate IsForwardOp(op: Op) {
    op.SetUdataMeta? || op.SetUdataEnv? || op.SetClosureRef? || op.AddConstant?
  }

  lemma TableOpOk(s: State, op: Op)
    requires Inv(s) && Enabled(s, op) && IsTableOp(op)
    ensures Inv(Apply(s, op))
  {
    hide Inv, Accessible, Alive, BarrierBack, SafeMeta, SafeMode;
    match op
    case SetArray(t, i, v) => HeldAlive(s, t); HasAlive(s, v); SetArrayOk(s, t, i, v);
    case SetValue(t, i, v) =>
      HeldAlive(s, t);
      HasAlive(s, v);
      HasAlive(s, s.heap[t].hash[i].key);
      SetValueOk(s, t, i, v);
    case NewKey(t, i, v) => HeldAlive(s, t); HasAlive(s, v); NewKeyOk(s, t, i, v);
    case SetMeta(t, m, mode) => HeldAlive(s, t); HasAlive(s, m); SetMetaOk(s, t, m, mode);
  }

  lemma ForwardOpOk(s: State, op: Op)
    requires Inv(s) && Enabled(s, op) && IsForwardOp(op)
    ensures Inv(Apply(s, op))
  {
    hide Inv, Accessible, Alive, Barrier;
    match op
    case SetUdataMeta(t, v) => HeldAlive(s, t); HasAlive(s, v); OtherOk(s, t, Udata(v, s.heap[t].env), v);
    case SetUdataEnv(t, v) => HeldAlive(s, t); HasAlive(s, v); OtherOk(s, t, Udata(s.heap[t].meta, v), v);
    case SetClosureRef(t, i, v) => HeldAlive(s, t); HasAlive(s, v); OtherOk(s, t, Closure(s.heap[t].refs[i := v]), v);
    case AddConstant(t, v) =>
      HeldAlive(s, t);
      HasAlive(s, v);
      OtherOk(s, t, Proto(s.heap[t].refs + [v], s.heap[t].cache), v);
  }

  lemma PlainOpOk(s: State, op: Op)
    requires Inv(s) && Enabled(s, op) && !IsTableOp(op) && !IsForwardOp(op)
    ensures Inv(Apply(s, op))
  {
    hide Inv, Accessible, Alive, CloseUpvals, SetCache, HoldCaptured, Resurrect, Allocate;
    match op
    case New(r, o, late, t, i) => NewOk(s, r, o, late, t, i);
    case StoreSlot(t, i, v) => HeldAlive(s, t); HasAlive(s, v); SlotOk(s, t, i, v);
    case GrowStack(t, n) => HeldAlive(s, t); ResizeOk(s, t, GrownStack(s.heap[t], n));
    case SetTop(t, n) => HeldAlive(s, t); ResizeOk(s, t, s.heap[t].(top := n));
    case Rehash(t, arr, hash) => HeldAlive(s, t); RehashOk(s, t, s.heap[t].(arr := arr, hash := hash));
    case SetMode(t, mode) => SetModeOk(s, t, mode);
    case SetUpval(t, v) => SetUpvalOk(s, t, v);
    case CacheClosure(t, v) => HeldAlive(s, t); HasAlive(s, v); SetCacheOk(s, t, v);
    case SetGlobal(i, v) => HasAlive(s, v); SetGlobalOk(s, i, v);
    case Resume(t) => HeldAlive(s, t); ResumeOk(s, t);
    case Intern(r, t, i) => InternOk(s, r, t, i);
    case Capture(t, level, r, d, i) =>
      HeldAlive(s, t);
      HeldAlive(s, d);
      CaptureOk(s, t, level, r, d, i);
    case Close(t, level) => CloseInv(s, t, level);
  }

  /** Every operation of a program keeps the invariant, in every phase. */
  lemma OpOk(s: State, op: Op)
    requires Inv(s) && Enabled(s, op)
    ensures Inv(Apply(s, op))
  {
    hide Inv, Enabled, Apply;
    if IsTableOp(op) {
      TableOpOk(s, op);
    } else if IsForwardOp(op) {
      ForwardOpOk(s, op);
    } else {
      PlainOpOk(s, op);
    }
  }

  // ----- runs -----

  datatype Step = Collect(n: nat) | Program(op: Op)

  ghost predicate CanTake(s: State, step: Step) {
    step.Program? ==> Enabled(s, step.op)
  }

  ghost function After(s: State, step: Step): State
    requires CanTake(s, step)
  {
    match step
    case Collect(n) => SingleStep(s, n)
    case Program(op) => Apply(s, op)
  }

  /** A run: any interleaving of the operations of a program and single steps of the collector. */
  ghost predicate IsRun(run: seq<State>, steps: seq<Step>) {
    && |run| == |steps| + 1
    && forall k :: 0 <= k < |steps| ==> CanTake(run[k], steps[k]) && run[k + 1] == After(run[k], steps[k])
  }

  /** `lua_newstate`: the main thread, nothing else, and no cycle under way. */
  function Initial(main: Ref, slots: nat, globals: nat): State {
    State(map[main := Thread(seq(slots, _ => Nil), 0, [])], map[main := White(false)],
          [], [], [], [], [], false, Pause, main, main, seq(globals, _ => Nil), [], [], [], [], [])
  }

  lemma InitialOk(main: Ref, slots: nat, globals: nat)
    ensures Inv(Initial(main, slots, globals))
  {
    var s := Initial(main, slots, globals);
    assert Alive(s) == {main};
    assert OpenListOk(s.heap, main);
  }

  /** Whatever the program does with what it holds, but for the two changes of metatables that `SetMetaExact` is
      about, and whenever the collector runs: in every state of the run the invariant holds, so every object that
      the program can reach, even through a weak table or a cache, is in the heap and not dead, and so is everything
      it refers to. */
  lemma {:induction false} RunSafe(run: seq<State>, steps: seq<Step>, k: nat)
    requires IsRun(run, steps) && Inv(run[0]) && k < |run|
    ensures Inv(run[k])
    ensures forall x :: Accessible(run[k], x) ==>
        x in run[k].heap && !Dead(run[k], x) && Within(run[k].heap, x, run[k].heap.Keys)
    decreases k
  {
    if k > 0 {
      RunSafe(run, steps, k - 1);
      StepInv(run[k - 1], steps[k - 1]);
    }
    AllReachable(run[k]);
  }

  lemma StepInv(s: State, step: Step)
    requires Inv(s) && CanTake(s, step)
    ensures Inv(After(s, step))
  {
    hide Inv, SingleStep, Apply, Enabled;
    match step
    case Collect(n) => SingleStepOk(s, n);
    case Program(op) => OpOk(s, op);
  }

  lemma AllReachable(s: State)
    requires Inv(s)
    ensures forall x :: Accessible(s, x) ==> x in s.heap && !Dead(s, x) && Within(s.heap, x, s.heap.Keys)
  {
    assert Live(s);
    forall x | Accessible(s, x)
      ensures x in s.heap && !Dead(s, x) && Within(s.heap, x, s.heap.Keys)
    {
      AccessibleAlive(s, x);
      WithinMono(s.heap, x, Alive(s), s.heap.Keys);
    }
  }

  /** No object that the program can reach is freed by a sweep step, and it keeps its contents. */
  lemma SweepSafe(s: State, n: nat, x: Ref)
    requires Inv(s) && IsSweeping(s.phase) && Accessible(s, x)
    ensures x in SingleStep(s, n).heap && x in s.heap && Kept(s.heap, SingleStep(s, n).heap, x)
  {
    AccessibleAlive(s, x);
    SweepStepOk(s, n);
    assert x in Alive(SingleStep(s, n));
  }

  // ----- a whole cycle -----

  /** How far the cycle is from its end. */
  function Remaining(s: State): (nat, nat) {
    match s.phase
    case Pause => (0, 0)
    case Atomic => (0, 0)
    case Propagate => (4, Load(s))
    case SweepString => (3, |s.strAfter|)
    case SweepUdata => (2, 0)
    case Sweep => (1, |s.after|)
  }

  lemma {:induction false} StringsShorter(s: State, n: nat)
    ensures s.strAfter != [] && n > 0 ==> |SweepStrings(s, n).strAfter| < |s.strAfter|
    ensures |SweepStrings(s, n).strAfter| <= |s.strAfter| && SweepStrings(s, n).phase == s.phase
    decreases n
  {
    if n > 0 && s.strAfter != [] { StringsShorter(SweepString1(s), n - 1); }
  }

  lemma StepProgress(s: State, n: nat)
    requires Inv(s) && s.phase != Pause && n > 0
    ensures var s' := SingleStep(s, n);
            Remaining(s').0 < Remaining(s).0 || (Remaining(s').0 == Remaining(s).0 && Remaining(s').1 < Remaining(s).1)
  {
    hide Wf, Live, Swept, Marking, Shrinks, AllWhite, Load;
    match s.phase
    case Propagate =>
      if s.gray != [] {
        PropagateMarkVisits(s);
        SamePhase(s, PropagateMark(s));
      } else {
        MarkingBound(s);
        InvRoots(s);
        AtomicOk(s, s.heap.Keys);
        EnterSweepOk(AtomicStep(s));
      }
    case SweepString => StringsShorter(s, n);
    case Sweep =>
      assert SweepInv(s);
      if s.after != [] { SweepObjectsOk(s, n); }
    case _ =>
  }

  /** Single steps until the cycle ends. */
  ghost function FinishCycle(s: State, n: nat): State
    requires Inv(s) && n > 0
    decreases Remaining(s).0, Remaining(s).1
  {
    if s.phase == Pause then s
    else
      StepProgress(s, n);
      SingleStepOk(s, n);
      FinishCycle(SingleStep(s, n), n)
  }

  lemma {:induction false} FinishOk(s: State, n: nat, c: set<Ref>)
    requires Inv(s) && n > 0 && Needed(s, c) && s.phase != Pause
    ensures var s' := FinishCycle(s, n);
            Inv(s') && s'.phase == Pause && s'.heap.Keys <= c
    decreases Remaining(s).0, Remaining(s).1
  {
    hide Inv, Needed, SingleStep, Remaining;
    StepProgress(s, n);
    SingleStepOk(s, n);
    StepNeeded(s, n, c);
    var s1 := SingleStep(s, n);
    if s1.phase != Pause { FinishOk(s1, n, c); }
  }

  /** A cycle that no program step interrupts ends, and of the objects it started with only those are
      left that are in every closed set with the roots: what is reachable without weak references, and strings. */
  lemma CycleCollectsGarbage(s: State, n: nat, c: set<Ref>)
    requires Inv(s) && s.phase == Pause && n > 0 && Closed(s.heap, c) && RootsIn(s, c)
    ensures Inv(Restart(s)) && Restart(s).phase == Propagate
    ensures var s' := FinishCycle(Restart(s), n);
            Inv(s') && s'.phase == Pause && s'.heap.Keys <= c
  {
    hide Inv, Closed;
    StepNeeded(s, n, c);
    SingleStepOk(s, n);
    FinishOk(Restart(s), n, c);
  }

  // ----- metatables of tables that are not visited again -----

  /** `setmetatable` keeps the invariant exactly when a table that waits to be cleared as an all-weak table stays
      all-weak and its metatable is marked, and when an all-weak table that gets another mode has no entry
      with a dead key. */
  lemma SetMetaExact(s: State, t: Ref, m: Value, mode: Mode)
    requires Inv(s) && t in Alive(s) && IsTable(s, t) && In(m, Alive(s))
    ensures Inv(BarrierBack(Put(s, t, s.heap[t].(meta := m, mode := mode)), t, m))
       <==> SafeMeta(s, t, m, mode) && SafeMode(s, t, mode)
  {
    var s' := BarrierBack(Put(s, t, s.heap[t].(meta := m, mode := mode)), t, m);
    if SafeMeta(s, t, m, mode) && SafeMode(s, t, mode) {
      SetMetaOk(s, t, m, mode);
    } else if Inv(s') {
      MetaAlive(s, t, m, mode);
      if !SafeMode(s, t, mode) {
        KeysAlive(s', t);
      } else {
        AllWeakGray(s, t);
        WeakMetaMarked(s', t);
      }
    }
  }

  /** An all-weak table with a freed key that gets another mode has lost it at once: whatever the state, the program can
      then reach, through the table, what has been freed or is about to be. */
  lemma KeyLost(s: State, t: Ref, m: Value, mode: Mode)
    requires Inv(s) && Accessible(s, t) && IsTable(s, t) && In(m, Alive(s)) && !SafeMode(s, t, mode)
    ensures var s' := BarrierBack(Put(s, t, s.heap[t].(meta := m, mode := mode)), t, m);
      exists x :: Accessible(s', x) && x !in Alive(s')
  {
    var s' := BarrierBack(Put(s, t, s.heap[t].(meta := m, mode := mode)), t, m);
    HeldAlive(s, t);
    MetaAlive(s, t, m, mode);
    BackAlive(Put(s, t, s.heap[t].(meta := m, mode := mode)), t, m);
    var j :| 0 <= j < |s.heap[t].hash| && !In(s.heap[t].hash[j].key, Alive(s));
    var x := s.heap[t].hash[j].key.ref;
    assert s'.heap[t].hash[j].key == Obj(x);
    var p :| Path(s, p) && p[|p| - 1] == t;
    hide Inv, BarrierBack, Alive, SafeMode, Accessible, Path;
    var q := PathKept(s, s', p, t);
    PathOn(s', q, t, x) by { NamesKey(s', t, j); }
  }

  lemma NamesKey(s: State, t: Ref, j: nat)
    requires IsTable(s, t) && !s.heap[t].mode.AllWeak? && j < |s.heap[t].hash| && s.heap[t].hash[j].key.Obj?
    ensures Names(s.heap, t, s.heap[t].hash[j].key.ref)
  {
  }

  lemma PathOn(s: State, q: seq<Ref>, t: Ref, x: Ref)
    requires Path(s, q) && q[|q| - 1] == t && t in s.heap && Names(s.heap, t, x)
    ensures Accessible(s, x)
  {
    assert Path(s, q + [x]);
  }

  /** The path to the table up to where it comes first. */
  lemma {:induction false} PathKept(s: State, s': State, p: seq<Ref>, t: Ref) returns (q: seq<Ref>)
    requires Path(s, p) && t in p && IsTable(s, t)
    requires IsTable(s', t) && s'.heap == s.heap[t := s'.heap[t]]
    requires s'.main == s.main && s'.running == s.running && s'.globals == s.globals
    ensures Path(s', q) && q[|q| - 1] == t
    decreases |p|
  {
    var i :| 0 <= i < |p| && p[i] == t;
    if j :| 0 <= j < i && p[j] == t {
      q := PathKept(s, s', p[..i], t);
    } else {
      q := p[..i + 1];
      forall k | 0 <= k < i
        ensures q[k] in s'.heap && Names(s'.heap, q[k], q[k + 1])
      {
        SameNames(s.heap, s'.heap, t, p[k], p[k + 1]);
      }
    }
  }

  lemma SameNames(h: map<Ref, Object>, h': map<Ref, Object>, t: Ref, r: Ref, x: Ref)
    requires t in h && h[t].Table? && t in h' && h'[t].Table? && h' == h[t := h'[t]] && r in h && r != t
    requires Names(h, r, x)
    ensures r in h' && Names(h', r, x)
  {
    forall p: set<Ref> | Within(h', r, p)
      ensures x in p
    {
      assert Within(h, r, p);
    }
  }

  lemma MetaAlive(s: State, t: Ref, m: Value, mode: Mode)
    requires Inv(s) && t in Alive(s) && IsTable(s, t)
    ensures var s' := BarrierBack(Put(s, t, s.heap[t].(meta := m, mode := mode)), t, m);
            && Alive(s') == Alive(s) && t in s'.heap && s'.heap[t] == s.heap[t].(meta := m, mode := mode)
            && (!IsBlack(s, t) ==> s' == Put(s, t, s.heap[t].(meta := m, mode := mode)) && Marked(s') == Marked(s))
  {
    var s1 := Put(s, t, s.heap[t].(meta := m, mode := mode));
    PutAlive(s, t, s.heap[t].(meta := m, mode := mode));
    hide Inv, Alive, Marked;
    BackAlive(s1, t, m);
  }

  /** The backward barrier makes a black object gray, and nothing dies by that. */
  lemma BackAlive(s: State, t: Ref, v: Value)
    ensures BarrierBack(s, t, v).heap == s.heap && Alive(BarrierBack(s, t, v)) == Alive(s)
    ensures !IsBlack(s, t) ==> BarrierBack(s, t, v) == s
  {
  }

  lemma KeysAlive(s: State, t: Ref)
    requires Inv(s) && t in Alive(s) && IsTable(s, t) && !s.heap[t].mode.AllWeak?
    ensures KeysIn(s.heap[t].hash, Alive(s))
  {
    assert Within(s.heap, t, Alive(s)) by { assert Live(s); }
  }

  lemma WeakMetaMarked(s: State, t: Ref)
    requires Inv(s) && s.phase == Propagate && t in s.allweak
    ensures IsTable(s, t) && s.heap[t].mode.AllWeak? && In(s.heap[t].meta, Marked(s))
  {
    assert WeakOk(s) && OnlyAllWeak(s);
    var i :| 0 <= i < |s.allweak| && s.allweak[i] == t;
  }

  lemma AllWeakGray(s: State, t: Ref)
    requires Inv(s) && s.phase == Propagate && t in s.allweak
    ensures !IsBlack(s, t)
  {
    assert ListsOk(s, GrayOpens(s));
    assert multiset(s.allweak)[t] > 0;
    assert GrayLists(s)[t] > 0;
  }
}

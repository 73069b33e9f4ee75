/** Programs that give an all-weak table another metatable or another mode at a bad time. Each starts from a
    new Lua state and ends with a table that the program holds and that refers to a freed object. */
module MetatableLoss {
  import opened CollectorState
  import opened Traversal
  import opened AtomicPhase
  import opened Sweeping
  import opened CollectorInvariant
  import opened Mutator
  import opened Programs
  import opened CollectorRuns

  // ----- what a program can get to -----

  ghost predicate Reached(s: State) {
    exists run, steps :: IsRun(run, steps) && run[0] == Initial(0, 3, 0) && run[|steps|] == s
  }

  lemma StartReached()
    ensures Reached(Initial(0, 3, 0))
  {
    assert IsRun([Initial(0, 3, 0)], []);
  }

  lemma Further(s: State, step: Step)
    requires Reached(s) && CanTake(s, step)
    ensures Reached(After(s, step))
  {
    hide After, CanTake, Initial;
    var run, steps :| IsRun(run, steps) && run[0] == Initial(0, 3, 0) && run[|steps|] == s;
    var run', steps' := run + [After(s, step)], steps + [step];
    forall k | 0 <= k < |steps'|
      ensures CanTake(run'[k], steps'[k]) && run'[k + 1] == After(run'[k], steps'[k])
    {
      if k < |steps| { assert run'[k] == run[k] && run'[k + 1] == run[k + 1] && steps'[k] == steps[k]; }
    }
    assert IsRun(run', steps');
  }

  lemma MainHeld(s: State)
    ensures Accessible(s, s.main)
  {
    assert Path(s, [s.main]);
  }

  lemma SlotHeld(s: State, i: nat)
    requires HasSlot(s, s.main, i) && s.heap[s.main].stack[i].Obj?
    ensures Accessible(s, s.heap[s.main].stack[i].ref)
  {
    var x := s.heap[s.main].stack[i].ref;
    assert Names(s.heap, s.main, x) by {
      forall p: set<Ref> | Within(s.heap, s.main, p) ensures x in p {
        assert In(s.heap[s.main].stack[i], p);
      }
    }
    assert Path(s, [s.main, x]);
  }

  // ----- the program -----

  function Main(v: Value): Object { Thread([Obj(1), Obj(2), v], 3, []) }

  function NewTable(): Object { Table(Strong, Nil, [], []) }

  /** The table with one entry, which is empty. */
  function Holder(meta: Value, mode: Mode): Object { Table(mode, meta, [], [Entry(Obj(3), Nil)]) }

  function AtRest(heap: map<Ref, Object>, before: seq<Ref>): State {
    State(heap, map r | r in heap :: White(false), [], [], [], [], [], false, Pause, 0, 0, [], [], [], [], before, [])
  }

  function Stored(): State {
    AtRest(map[0 := Main(Nil), 1 := Holder(Obj(2), AllWeak), 2 := NewTable(), 3 := NewTable()], [3, 2, 1])
  }

  /** A new table is put into a slot of the main thread. */
  lemma NewStep(s: State, r: Ref, i: nat, s': State)
    requires Reached(s) && s.main == 0 && HasSlot(s, 0, i) && r !in s.heap && 0 in s.heap
    requires s' == s.(heap := s'.heap, color := s'.color, before := [r] + s.before)
    requires s'.color == s.color[r := White(s.current)]
    requires s'.heap == s.heap[r := NewTable()][0 := s.heap[0].(stack := s.heap[0].stack[i := Obj(r)])]
    ensures Reached(s')
  {
    hide Reached;
    MainHeld(s);
    assert Contents(NewTable()) == [Nil];
    var op := New(r, NewTable(), false, 0, i);
    assert Enabled(s, op);
    assert Apply(s, op) == s';
    Further(s, Program(op));
  }

  /** A slot of the main thread is cleared. */
  lemma ClearStep(s: State, i: nat, s': State)
    requires Reached(s) && s.main == 0 && HasSlot(s, 0, i) && s' == SetSlot(s, 0, i, Nil)
    ensures Reached(s')
  {
    hide Reached;
    MainHeld(s);
    Further(s, Program(StoreSlot(0, i, Nil)));
  }

  /** A table, its metatable, which makes it all-weak, and a key without a value that nothing else holds. */
  lemma StoredReached()
    ensures Reached(Stored())
  {
    hide Reached;
    WithMeta();
    var s4 := AtRest(map[0 := Main(Nil), 1 := Table(AllWeak, Obj(2), [], []), 2 := NewTable()], [2, 1]);
    var s5 := AtRest(map[0 := Main(Obj(3)), 1 := Table(AllWeak, Obj(2), [], []), 2 := NewTable(), 3 := NewTable()],
        [3, 2, 1]);
    assert s4.heap[0].stack[2 := Obj(3)] == [Obj(1), Obj(2), Obj(3)];
    assert s5.heap == s4.heap[3 := NewTable()][0 := Main(Obj(3))] && s5.color == s4.color[3 := White(false)];
    NewStep(s4, 3, 2, s5);
    WithKey3(s5);
  }

  lemma WithKey3(s5: State)
    requires Reached(s5)
    requires s5 ==
        AtRest(map[0 := Main(Obj(3)), 1 := Table(AllWeak, Obj(2), [], []), 2 := NewTable(), 3 := NewTable()], [3, 2, 1])
    ensures Reached(Stored())
  {
    hide Reached;
    var s6 := AtRest(map[0 := Main(Obj(3)), 1 := Holder(Obj(2), AllWeak), 2 := NewTable(), 3 := NewTable()], [3, 2, 1]);
    SlotHeld(s5, 0);
    SlotHeld(s5, 2);
    assert s5.heap[1].hash + [Entry(Obj(3), Nil)] == [Entry(Obj(3), Nil)];
    assert s6.heap == s5.heap[1 := WithKey(s5.heap[1], 0, Obj(3))] && s6.color == s5.color;
    assert Apply(s5, NewKey(1, 0, Obj(3))) == s6;
    Further(s5, Program(NewKey(1, 0, Obj(3))));
    assert Stored().heap == s6.heap[0 := Main(Nil)] && Stored().color == s6.color;
    assert s6.heap[0].stack[2 := Nil] == [Obj(1), Obj(2), Nil];
    ClearStep(s6, 2, Stored());
  }

  lemma WithMeta()
    ensures Reached(AtRest(map[0 := Main(Nil), 1 := Table(AllWeak, Obj(2), [], []), 2 := NewTable()], [2, 1]))
  {
    hide Reached;
    var s := AtRest(map[0 := Main(Nil), 1 := NewTable(), 2 := NewTable()], [2, 1]);
    var s' := AtRest(map[0 := Main(Nil), 1 := Table(AllWeak, Obj(2), [], []), 2 := NewTable()], [2, 1]);
    Tables();
    SlotHeld(s, 0);
    SlotHeld(s, 1);
    assert s'.heap == s.heap[1 := Table(AllWeak, Obj(2), [], [])] && s'.color == s.color;
    assert Apply(s, SetMeta(1, Obj(2), AllWeak)) == s';
    Further(s, Program(SetMeta(1, Obj(2), AllWeak)));
  }

  lemma Tables()
    ensures Reached(AtRest(map[0 := Main(Nil), 1 := NewTable(), 2 := NewTable()], [2, 1]))
  {
    hide Reached;
    var s1 := AtRest(map[0 := Thread([Nil, Nil, Nil], 3, [])], []);
    var s2 := AtRest(map[0 := Thread([Obj(1), Nil, Nil], 3, []), 1 := NewTable()], [1]);
    var s3 := AtRest(map[0 := Main(Nil), 1 := NewTable(), 2 := NewTable()], [2, 1]);
    TopSet();
    assert [Nil, Nil, Nil][0 := Obj(1)] == [Obj(1), Nil, Nil] &&
        [Obj(1), Nil, Nil][1 := Obj(2)] == [Obj(1), Obj(2), Nil];
    assert s2.heap == s1.heap[1 := NewTable()][0 := Thread([Obj(1), Nil, Nil], 3, [])] &&
        s2.color == s1.color[1 := White(false)];
    NewStep(s1, 1, 0, s2);
    assert s3.heap == s2.heap[2 := NewTable()][0 := Main(Nil)] && s3.color == s2.color[2 := White(false)];
    NewStep(s2, 2, 1, s3);
  }

  lemma TopSet()
    ensures Reached(AtRest(map[0 := Thread([Nil, Nil, Nil], 3, [])], []))
  {
    hide Reached;
    var s0 := Initial(0, 3, 0);
    var s1 := AtRest(map[0 := Thread([Nil, Nil, Nil], 3, [])], []);
    StartReached();
    MainHeld(s0);
    assert s0.heap[0].stack == [Nil, Nil, Nil];
    assert s1.heap == s0.heap[0 := s0.heap[0].(top := 3)] && s1.color == s0.color;
    assert Apply(s0, SetTop(0, 3)) == s1;
    Further(s0, Program(SetTop(0, 3)));
  }

  // ----- the collector marks -----

  /** All gray objects have been visited once: the table waits to be cleared, and its key is not marked. */
  function Visited(): State {
    Stored().(color := map[0 := Gray, 1 := Gray, 2 := Black, 3 := White(false)], grayagain := [0], allweak := [1],
        phase := Propagate)
  }

  lemma VisitedReached()
    ensures Reached(Visited())
  {
    hide Reached;
    var s := Stored();
    var a := s.(color := map[0 := Gray, 1 := White(false), 2 := White(false), 3 := White(false)], gray := [0],
        phase := Propagate);
    var b := s.(color := map[0 := Gray, 1 := Gray, 2 := Gray, 3 := White(false)], gray := [2, 1], grayagain := [0],
        phase := Propagate);
    var c := s.(color := map[0 := Gray, 1 := Gray, 2 := Black, 3 := White(false)], gray := [1], grayagain := [0],
        phase := Propagate);
    StoredReached();
    assert SingleStep(s, 1) == a by { FirstGray(s, a); }
    Further(s, Collect(1));
    assert SingleStep(a, 1) == b by { MainVisited(a, b); }
    Further(a, Collect(1));
    assert SingleStep(b, 1) == c by { MetaVisited(b, c); }
    Further(b, Collect(1));
    assert SingleStep(c, 1) == Visited() by { HolderVisited(c); }
    Further(c, Collect(1));
  }

  lemma FirstGray(s: State, a: State)
    requires s == Stored()
    requires a ==
        s.(color := map[0 := Gray, 1 := White(false), 2 := White(false), 3 := White(false)], gray := [0],
        phase := Propagate)
    ensures Restart(s) == a
  {
    assert MarkValue(s, Obj(0)) == Mark(s, 0);
    assert Paint(s, 0, Gray).color == a.color;
  }

  lemma MainVisited(a: State, b: State)
    requires a ==
        Stored().(color := map[0 := Gray, 1 := White(false), 2 := White(false), 3 := White(false)], gray := [0],
        phase := Propagate)
    requires b ==
        Stored().(color := map[0 := Gray, 1 := Gray, 2 := Gray, 3 := White(false)], gray := [2, 1], grayagain := [0],
        phase := Propagate)
    ensures PropagateMark(a) == b
  {
    hide PropagateMark, MarkAll, TraverseStack;
    var s1 := a.(gray := [], grayagain := [0]);
    assert a.gray[1..] == [] && [0] + a.grayagain == [0];
    assert s1 == a.(gray := a.gray[1..], grayagain := [0] + a.grayagain);
    ThreadTaken(a);
    assert s1.heap[0] == Main(Nil);
    StackTaken(s1);
    BothMarked(s1);
    BothGray();
  }

  lemma StackTaken(s: State)
    requires 0 in s.heap && s.heap[0] == Main(Nil) && s.phase == Propagate
    ensures TraverseStack(s, 0) == MarkAll(s, [Obj(1), Obj(2), Nil])
  {
    hide MarkAll;
    assert s.heap[0].stack[..3] == [Obj(1), Obj(2), Nil];
  }

  lemma BothGray()
    ensures map[0 := Gray, 1 := White(false), 2 := White(false), 3 := White(false)][1 := Gray][2 := Gray] ==
      map[0 := Gray, 1 := Gray, 2 := Gray, 3 := White(false)]
  {
  }

  /** A thread that is visited stays gray and will be visited again. */
  lemma ThreadTaken(s: State)
    requires s.gray != [] && s.gray[0] in s.heap && s.gray[0] in s.color && s.heap[s.gray[0]].Thread?
    requires s.color[s.gray[0]] == Gray
    ensures var r := s.gray[0];
      PropagateMark(s) == TraverseStack(s.(gray := s.gray[1..], grayagain := [r] + s.grayagain), r)
  {
    var r := s.gray[0];
    assert s.color[r := Black][r := Gray] == s.color;
  }

  lemma BothMarked(s: State)
    requires s.heap.Keys == s.color.Keys && s.heap.Keys >= {1, 2} && s.color[1] == White(false) == s.color[2]
    requires s.heap[1].Table? && s.heap[2].Table? && s.gray == []
    ensures MarkAll(s, [Obj(1), Obj(2), Nil]) == s.(color := s.color[1 := Gray][2 := Gray], gray := [2, 1])
  {
    var vs := [Obj(1), Obj(2), Nil];
    assert vs[1..] == [Obj(2), Nil] && vs[1..][1..] == [Nil];
    var s2 := Paint(s, 1, Gray).(gray := [1]);
    var s3 := Paint(s2, 2, Gray).(gray := [2, 1]);
    TableMarked(s, 1);
    TableMarked(s2, 2);
    assert [1] + s.gray == [1] && [2] + s2.gray == [2, 1];
    assert MarkAll(s3, [Nil]) == MarkAll(s3, []) == s3;
    hide MarkValue;
    assert MarkAll(s2, vs[1..]) == s3;
  }

  lemma TableMarked(s: State, r: Ref)
    requires r in s.heap && r in s.color && s.color[r].White? && s.heap[r].Table?
    ensures MarkValue(s, Obj(r)) == Paint(s, r, Gray).(gray := [r] + s.gray)
  {
  }

  lemma MetaVisited(b: State, c: State)
    requires b ==
        Stored().(color := map[0 := Gray, 1 := Gray, 2 := Gray, 3 := White(false)], gray := [2, 1], grayagain := [0],
        phase := Propagate)
    requires c ==
        Stored().(color := map[0 := Gray, 1 := Gray, 2 := Black, 3 := White(false)], gray := [1], grayagain := [0],
        phase := Propagate)
    ensures PropagateMark(b) == c
  {
    var s1 := Blacken(b, 2).(gray := [1]);
    assert s1.color == c.color;
    assert TraverseTable(s1, 2) == StrongEntries(MarkAll(s1, []), 2, 0, 0) == s1;
  }

  lemma HolderVisited(c: State)
    requires c ==
        Stored().(color := map[0 := Gray, 1 := Gray, 2 := Black, 3 := White(false)], gray := [1], grayagain := [0],
        phase := Propagate)
    ensures PropagateMark(c) == Visited()
  {
    var s1 := Blacken(c, 1).(gray := []);
    assert MarkValue(s1, Obj(2)) == s1;
    assert Regray(s1, 1).color == c.color;
  }

  // ----- the atomic step and the sweep, whatever has become of the table -----

  /** The main thread holds the table, which waits to be cleared, and its first metatable; what is not marked
      comes first in the list of all objects. */
  predicate Waits(s: State, dead: seq<Ref>) {
    && s.phase == Propagate && s.gray == [] && s.grayagain == [0] && s.weak == [] && s.ephemeron == [] &&
        s.allweak == [1]
    && s.uvhead == [] && s.globals == [] && s.running == 0 && s.main == 0 && !s.current
    && s.strBefore == [] && s.strAfter == [] && s.after == [] && s.before == dead + [2, 1]
    && s.color.Keys == s.heap.Keys && 0 in s.heap && 1 in s.heap && 2 in s.heap
    && s.heap[0] == Main(Nil) && s.heap[1].Table? && s.heap[1].arr == [] && s.heap[1].hash == [Entry(Obj(3), Nil)]
    && s.color[0] == Gray && s.color[1] == Gray && s.color[2] == Black && s.heap[2] == NewTable()
    && forall i :: 0 <= i < |dead| ==> dead[i] in s.color && dead[i] > 2 && s.color[dead[i]] == White(false)
                                       && s.heap[dead[i]] == NewTable()
  }

  lemma AtomicWaits(s: State, dead: seq<Ref>)
    requires Waits(s, dead)
    ensures AtomicStep(s) == s.(phase := Atomic, current := true)
  {
    var a := s.(phase := Atomic);
    RestMarked(s, dead);
    assert ClearValues(a, []) == a && ClearKeys(a, []) == a;
    assert [1][1..] == [];
    assert ClearSlots(a, 1, 0, 0) == a;
    assert ClearEntries(a, 1, 0, 1, false) == ClearEntries(a, 1, 1, 1, false) == a;
    assert ClearEntries(a, 1, 0, 1, true) == ClearEntries(a, 1, 1, 1, true) == a;
    assert ClearValues(a, [1]) == a && ClearKeys(a, [1]) == a;
    assert ClearWeak(a) == a;
  }

  lemma RestMarked(s: State, dead: seq<Ref>)
    requires Waits(s, dead)
    ensures MarkRest(s) == s.(phase := Atomic)
  {
    var a := s.(phase := Atomic);
    assert MarkValue(a, Obj(0)) == a && MarkAll(a, []) == a && RemarkUpvals(a, []) == a && PropagateAll(a) == a;
    var s1 := a.(weak := [], grayagain := [], ephemeron := []);
    var g := s1.(gray := [0]);
    MainAgain(a, g);
    hide PropagateMark;
    PropagateMarkVisits(g);
    assert PropagateAll(g) == PropagateAll(a);
    assert PropagateList(s1, [0]) == a;
    assert PropagateList(a, []) == a;
    assert RetraverseGrays(a) == a;
    hide PropagateAll, PropagateList, RetraverseGrays;
    assert Round(a.(ephemeron := []), [], false) == (a, false);
    assert Converge(a) == a;
  }

  lemma MainAgain(a: State, g: State)
    requires a.phase == Atomic && a.gray == [] && a.grayagain == [0] && a.color.Keys == a.heap.Keys
    requires a.heap.Keys >= {0, 1, 2}
    requires a.heap[0] == Main(Nil) && a.color[0] == Gray && a.color[1] == Gray && a.color[2] == Black
    requires g == a.(weak := [], grayagain := [], ephemeron := [], gray := [0]) && a.weak == [] && a.ephemeron == []
    ensures PropagateMark(g) == a
  {
    hide PropagateMark, TraverseStack;
    ThreadTaken(g);
    assert g.gray[1..] == [] && [0] + g.grayagain == [0];
    assert g.(gray := [], grayagain := [0]) == a;
    NothingNew(a);
  }

  /** The stack of the main thread has been marked. */
  lemma NothingNew(a: State)
    requires a.phase == Atomic && a.color.Keys == a.heap.Keys && a.heap.Keys >= {0, 1, 2}
    requires a.heap[0] == Main(Nil) && a.color[0] == Gray && a.color[1] == Gray && a.color[2] == Black
    ensures TraverseStack(a, 0) == a
  {
    AllMarked(a);
    hide MarkAll;
    assert a.heap[0].stack[..3] == [Obj(1), Obj(2), Nil];
    assert Truncated(a.heap[0]) == a.heap[0].stack;
    assert ClearAbove(a, 0).heap == a.heap;
  }

  lemma AllMarked(a: State)
    requires a.color.Keys == a.heap.Keys && a.heap.Keys >= {1, 2} && a.color[1] == Gray && a.color[2] == Black
    ensures MarkAll(a, [Obj(1), Obj(2), Nil]) == a
  {
    var vs := [Obj(1), Obj(2), Nil];
    assert vs[1..] == [Obj(2), Nil] && vs[1..][1..] == [Nil];
    assert MarkValue(a, Obj(1)) == a && MarkValue(a, Obj(2)) == a && MarkValue(a, Nil) == a;
    assert MarkAll(a, [Nil]) == MarkAll(a, []) == a;
    assert MarkAll(a, vs[1..]) == a && MarkAll(a, vs) == a;
  }

  /** The sweep starts with the dead objects and stops at the first live one. */
  lemma DeadDropped(s: State, r: Ref)
    requires s.after != [] && s.after[0] == r && r in s.color && s.current && s.color[r] == White(false)
    requires r in s.heap && s.heap[r] == NewTable()
    ensures Dead(s, r) && SweepObject(s) == Drop(s.(after := s.after[1..]), r)
  {
  }

  lemma {:induction false} DeadFreed(s: State, dead: seq<Ref>, n: nat)
    requires s.current && s.after == dead + [2, 1] && n > |dead| && 2 in s.color && s.color[2] == Black && 2 in s.heap
    requires s.heap[2] == NewTable()
    requires forall i :: 0 <= i < |dead| ==> dead[i] in s.color && dead[i] > 2 && s.color[dead[i]] == White(false)
                                             && dead[i] in s.heap && s.heap[dead[i]] == NewTable()
    requires forall i, j :: 0 <= i < j < |dead| ==> dead[i] != dead[j]
    ensures SweepToLive(s, n) ==
        Whiten(s.(heap := s.heap - Set(dead), color := s.color - Set(dead), after := [1], before := s.before + [2]), 2)
    decreases |dead|
  {
    if dead == [] {
      assert s.after[0] == 2 && s.after[1..] == [1];
      assert s.heap - Set(dead) == s.heap && s.color - Set(dead) == s.color;
    } else {
      var r := dead[0];
      var s1 := Drop(s.(after := s.after[1..]), r);
      assert s.after[0] == r && s.after[1..] == dead[1..] + [2, 1];
      DeadDropped(s, r);
      hide SweepObject;
      forall i | 0 <= i < |dead[1..]|
        ensures dead[1..][i] in s1.color && dead[1..][i] > 2 && s1.color[dead[1..][i]] == White(false)
                && dead[1..][i] in s1.heap && s1.heap[dead[1..][i]] == NewTable()
      {
        assert dead[1..][i] == dead[i + 1] && dead[i + 1] != r;
      }
      DeadFreed(s1, dead[1..], n - 1);
      assert Set(dead) == {r} + Set(dead[1..]);
      assert s1.heap - Set(dead[1..]) == s.heap - Set(dead) && s1.color - Set(dead[1..]) == s.color - Set(dead);
    }
  }

  function Set(l: seq<Ref>): set<Ref> {
    set x | x in l
  }

  function Swept1(s: State, dead: seq<Ref>): State {
    s.(heap := s.heap - Set(dead), color := (s.color - Set(dead))[2 := White(true)], current := true,
        phase := SweepString,
       before := [2], after := [1])
  }

  lemma AtomicFrees(s: State, dead: seq<Ref>, n: nat)
    requires Waits(s, dead) && forall i, j :: 0 <= i < j < |dead| ==> dead[i] != dead[j]
    ensures SingleStep(s, n) == Swept1(s, dead)
  {
    AtomicWaits(s, dead);
    var a := s.(phase := Atomic, current := true);
    var s1 := a.(phase := SweepString, strBefore := [], strAfter := [], before := [], after := dead + [2, 1]);
    assert a.before + a.after == dead + [2, 1];
    assert s1 == a.(phase := SweepString, strBefore := [], strAfter := a.strBefore + a.strAfter, before := [],
        after := a.before + a.after);
    DeadFreed(s1, dead, |dead| + 2);
    assert EnterSweep(a) == SweepToLive(s1, |dead| + 2);
  }

  // ----- a table that waits to be cleared -----

  /** Another table has been made since. */
  function WithNew(): State {
    Visited().(heap :=
        map[0 := Main(Obj(4)), 1 := Holder(Obj(2), AllWeak), 2 := NewTable(), 3 := NewTable(), 4 := NewTable()],
               color := map[0 := Gray, 1 := Gray, 2 := Black, 3 := White(false), 4 := White(false)],
                   before := [4, 3, 2, 1])
  }

  lemma WithNewReached()
    ensures Reached(WithNew())
  {
    hide Reached;
    var v := Visited();
    VisitedReached();
    assert v.heap[0].stack[2 := Obj(4)] == [Obj(1), Obj(2), Obj(4)];
    assert WithNew().heap == v.heap[4 := NewTable()][0 := Main(Obj(4))] &&
        WithNew().color == v.color[4 := White(false)];
    NewStep(v, 4, 2, WithNew());
  }

  /** The metatable given to a table that waits to be cleared is not marked. Here it is freed by the next collector
      step, and the table still refers to it. */
  lemma MetatableFreed()
    ensures var s := WithNew();
            && Reached(s) && Inv(s) && SafeMode(s, 1, AllWeak) && !SafeMeta(s, 1, Obj(4), AllWeak)
            && var s1 := BarrierBack(Put(s, 1, s.heap[1].(meta := Obj(4), mode := AllWeak)), 1, Obj(4));
            && HasSlot(s1, 0, 2)
            && var s2 := SingleStep(SetSlot(s1, 0, 2, Nil), 1);
            && s2.heap.Keys == {0, 1, 2} && s2.heap[0] == Main(Nil) && s2.heap[1] == Holder(Obj(4), AllWeak)
  {
    hide Reached, Inv, SingleStep;
    WithNewReached();
    ReachedOk(WithNew());
    NewMetaWaits();
    var w := SetSlot(Put(WithNew(), 1, Holder(Obj(4), AllWeak)), 0, 2, Nil);
    AtomicFrees(w, [4, 3], 1);
    assert w.heap.Keys - Set([4, 3]) == {0, 1, 2};
  }

  lemma NewMetaWaits()
    ensures var s := WithNew();
            && !SafeMeta(s, 1, Obj(4), AllWeak)
            && var s1 := Put(s, 1, Holder(Obj(4), AllWeak));
            && BarrierBack(s1, 1, Obj(4)) == s1 && HasSlot(s1, 0, 2) && Waits(SetSlot(s1, 0, 2, Nil), [4, 3])
            && SetSlot(s1, 0, 2, Nil).heap.Keys == {0, 1, 2, 3, 4}
            && SetSlot(s1, 0, 2, Nil).heap[1] == Holder(Obj(4), AllWeak)
  {
    var w := SetSlot(Put(WithNew(), 1, Holder(Obj(4), AllWeak)), 0, 2, Nil);
    assert [Obj(1), Obj(2), Obj(4)][2 := Nil] == [Obj(1), Obj(2), Nil];
    assert w.before == [4, 3] + [2, 1];
  }

  lemma {:induction false} ReachedOk(s: State)
    requires Reached(s)
    ensures Inv(s)
  {
    var run, steps :| IsRun(run, steps) && run[0] == Initial(0, 3, 0) && run[|steps|] == s;
    InitialOk(0, 3, 0);
    RunSafe(run, steps, |steps|);
  }

  /** A table that waits to be cleared and is not weak any more is cleared all the same and not visited. Here the key of
      its empty entry, still alive when the table lost its metatable, is freed by the next collector step; the collector
      will look at the key when it visits the table in the next cycle. */
  lemma WeaknessLost()
    ensures var s := Visited();
            && Reached(s) && Inv(s) && SafeMode(s, 1, Strong) && !SafeMeta(s, 1, Nil, Strong)
            && var s1 := BarrierBack(Put(s, 1, s.heap[1].(meta := Nil, mode := Strong)), 1, Nil);
            && var s2 := SingleStep(s1, 1);
            && s2.heap.Keys == {0, 1, 2} && s2.heap[0] == Main(Nil) && s2.heap[1] == Holder(Nil, Strong)
  {
    hide Reached, Inv;
    hide SingleStep;
    VisitedReached();
    ReachedOk(Visited());
    StrongWaits();
    var s1 := Put(Visited(), 1, Holder(Nil, Strong));
    AtomicFrees(s1, [3], 1);
    assert s1.heap.Keys - Set([3]) == {0, 1, 2};
  }

  lemma StrongWaits()
    ensures var s := Visited();
            && SafeMode(s, 1, Strong) && !SafeMeta(s, 1, Nil, Strong)
            && var s1 := Put(s, 1, Holder(Nil, Strong));
            && BarrierBack(s1, 1, Nil) == s1 && Waits(s1, [3]) && s1.heap.Keys == {0, 1, 2, 3}
            && s1.heap[1] == Holder(Nil, Strong) && s1.heap[0] == Main(Nil)
  {
    var s := Visited();
    assert s.heap[1].hash == [Entry(Obj(3), Nil)] && 3 in Alive(s);
    assert s.before == [3] + [2, 1];
  }

  // ----- an all-weak table after the cycle -----

  /** A cycle later. The entry still has its key. */
  function Later(): State {
    State(map[0 := Main(Nil), 1 := Holder(Obj(2), AllWeak), 2 := NewTable()],
          map[0 := White(true), 1 := White(true), 2 := White(true)],
          [], [0], [], [1], [], true, Pause, 0, 0, [], [], [], [], [2, 1], [])
  }

  lemma LaterReached()
    ensures Reached(Later())
  {
    hide Reached, SingleStep;
    var v := Visited();
    var a := Later().(color := map[0 := Gray, 1 := Gray, 2 := White(true)], phase := SweepString, before := [2],
        after := [1]);
    VisitedReached();
    VisitedFrees(v, a);
    Further(v, Collect(1));
    NoStrings(a);
    Further(a, Collect(1));
    var b := a.(phase := SweepUdata);
    NoUdata(b);
    Further(b, Collect(1));
    LastObjects(a.(phase := Sweep));
  }

  lemma VisitedFrees(v: State, a: State)
    requires v == Visited()
    requires a ==
        Later().(color := map[0 := Gray, 1 := Gray, 2 := White(true)], phase := SweepString, before := [2],
        after := [1])
    ensures SingleStep(v, 1) == a
  {
    hide SingleStep;
    assert Waits(v, [3]) by { assert v.before == [3] + [2, 1]; }
    AtomicFrees(v, [3], 1);
    assert Set([3]) == {3};
    assert v.heap - {3} == a.heap && (v.color - {3})[2 := White(true)] == a.color;
  }

  lemma NoStrings(a: State)
    requires a.phase == SweepString && a.strAfter == []
    ensures SingleStep(a, 1) == a.(phase := SweepUdata)
  {
  }

  lemma NoUdata(a: State)
    requires a.phase == SweepUdata
    ensures SingleStep(a, 1) == a.(phase := Sweep)
  {
  }

  lemma LastObjects(c: State)
    requires c ==
        Later().(color := map[0 := Gray, 1 := Gray, 2 := White(true)], phase := Sweep, before := [2], after := [1])
    requires Reached(c)
    ensures Reached(Later())
  {
    hide Reached;
    var d := Later().(color := map[0 := Gray, 1 := White(true), 2 := White(true)], phase := Sweep);
    assert SweepObject(c) == Whiten(c.(after := [], before := [2, 1]), 1);
    assert SweepObject(c).color == d.color;
    assert SweepObjects(c, 1) == SweepObjects(d, 0) == d;
    Further(c, Collect(1));
    assert SweepUpvals(d, 0, 0) == d;
    assert KeepObject(d, 0).color == Later().color;
    Further(d, Collect(1));
  }

  /** An empty entry of an all-weak table keeps its key when that is freed. When the table gets another mode, the
      key is one that the collector looks at. This is the case that `SafeMode` excludes. */
  lemma StaleKey()
    ensures var s := Later();
            && Reached(s) && Inv(s) && SafeMeta(s, 1, Nil, Strong) && !SafeMode(s, 1, Strong)
            && var s1 := BarrierBack(Put(s, 1, s.heap[1].(meta := Nil, mode := Strong)), 1, Nil);
            && s1.heap.Keys == {0, 1, 2} && s1.heap[0] == Main(Nil) && s1.heap[1] == Holder(Nil, Strong) && !Inv(s1)
  {
    hide Reached, Inv;
    var s := Later();
    LaterReached();
    ReachedOk(s);
    assert s.heap[1].hash[0].key == Obj(3) && 3 !in Alive(s);
    SetMetaExact(s, 1, Nil, Strong);
  }
}

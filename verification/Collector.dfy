/** The collector as it works: marks, lists and heap are updated in place, with loops over work lists.
    Every method computes the function of the same name. */
module Collector {
  import opened CollectorState
  import T = Traversal
  import A = AtomicPhase
  import W = Sweeping
  import M = Mutator
  import CS = CollectorState
  import CollectorInvariant
  import CollectorSteps
  import CollectorRuns
  import OpenUpvals

  class GlobalState {
    var heap: map<Ref, Object>
    var color: map<Ref, Color>
    var gray: seq<Ref>
    var grayagain: seq<Ref>
    var weak: seq<Ref>
    var allweak: seq<Ref>
    var ephemeron: seq<Ref>
    var current: bool
    var phase: Phase
    var main: Ref
    var running: Ref
    var globals: seq<Value>
    var uvhead: seq<Ref>
    var strBefore: seq<Ref>
    var strAfter: seq<Ref>
    var before: seq<Ref>
    var after: seq<Ref>

    ghost function S(): State
      reads this
    {
      State(heap, color, gray, grayagain, weak, allweak, ephemeron, current, phase, main, running, globals,
            uvhead, strBefore, strAfter, before, after)
    }

    function Grayed(r: Ref): bool
      reads this
    {
      r in heap && r in color && color[r] == Gray
    }

    function White(v: Value): (w: bool)
      reads this
      ensures w == IsWhite(S(), v)
    {
      v.Obj? && v.ref in heap && v.ref in color && color[v.ref].White?
    }

    function IsDead(r: Ref): (d: bool)
      reads this
      ensures d == Dead(S(), r)
    {
      r in color && color[r] == Color.White(!current)
    }

    function SlotOf(t: Ref, i: nat): (v: Value)
      reads this
      ensures v == Slot(heap, t, i)
    {
      Slot(heap, t, i)
    }

    // ----- marking -----

    /** `reallymarkobject` */
    method Mark(r: Ref)
      requires r in Whites(S())
      modifies this
      ensures S() == CS.Mark(old(S()), r)
      decreases |Whites(S())|, 0
    {
      ghost var s := S();
      PaintWhites(s, r, Gray);
      color := color[r := Gray];
      var o := heap[r];
      match o {
        case Str(_) => Blacken(r);
        case Udata(m, e) =>
          MarkValue(m);
          MarkValue(e);
          Blacken(r);
        case Upval(v) =>
          MarkValue(v);
          Blacken(r);
        case OpenUpval(t, i) => MarkValue(SlotOf(t, i));
        case _ => gray := [r] + gray;
      }
    }

    method MarkValue(v: Value)
      modifies this
      ensures S() == CS.MarkValue(old(S()), v)
      decreases |Whites(S())|, 1
    {
      if White(v) { Mark(v.ref); }
    }

    /** `gray2black` */
    method Blacken(r: Ref)
      modifies this`color
      ensures S() == CS.Blacken(old(S()), r)
    {
      if r in heap && r in color { color := color[r := Black]; }
    }

    /** `black2gray` */
    method Regray(r: Ref)
      modifies this`color
      ensures S() == T.Regray(old(S()), r)
    {
      if r in heap && r in color { color := color[r := Gray]; }
    }

    method MarkAll(vs: seq<Value>)
      modifies this
      ensures S() == T.MarkAll(old(S()), vs)
    {
      var i := 0;
      assert vs[0..] == vs;
      while i < |vs|
        invariant 0 <= i <= |vs|
        invariant T.MarkAll(S(), vs[i..]) == T.MarkAll(old(S()), vs)
      {
        assert vs[i..][0] == vs[i] && vs[i..][1..] == vs[i + 1..];
        MarkValue(vs[i]);
        i := i + 1;
      }
    }

    // ----- tables -----

    function EntryAt(r: Ref, i: nat): (e: Entry)
      reads this
      ensures e == T.EntryAt(S(), r, i)
    {
      if r in heap && heap[r].Table? && i < |heap[r].hash| then heap[r].hash[i] else Entry(Nil, Nil)
    }

    method SetEntry(r: Ref, i: nat, e: Entry)
      modifies this`heap
      ensures S() == T.SetEntry(old(S()), r, i, e)
    {
      if r in heap && heap[r].Table? && i < |heap[r].hash| {
        heap := heap[r := heap[r].(hash := heap[r].hash[i := e])];
      }
    }

    method RemoveEntry(r: Ref, i: nat)
      modifies this`heap
      ensures S() == T.RemoveEntry(old(S()), r, i)
    {
      if EntryAt(r, i).val == Nil && White(EntryAt(r, i).key) { SetEntry(r, i, Entry(DeadKey, Nil)); }
    }

    /** `iscleared` */
    method Cleared(v: Value) returns (b: bool)
      modifies this
      ensures (S(), b) == T.Cleared(old(S()), v)
    {
      if !v.Obj? { return false; }
      if v.ref in heap && heap[v.ref].Str? {
        MarkValue(v);
        return false;
      }
      return White(v);
    }

    method TraverseWeakValue(r: Ref)
      requires r in heap && heap[r].Table?
      modifies this
      ensures S() == T.TraverseWeakValue(old(S()), r)
    {
      hide T.WeakValueEntry;
      var n := |heap[r].hash|;
      var clears := heap[r].arr != [];
      ghost var s0, c0 := S(), clears;
      var i := 0;
      while i < n
        invariant 0 <= i <= n
        invariant T.WeakValueEntries(S(), r, i, n, clears) == T.WeakValueEntries(s0, r, 0, n, c0)
      {
        clears := WeakValueEntry(r, i, clears);
        i := i + 1;
      }
      if clears { weak := [r] + weak; } else { grayagain := [r] + grayagain; }
    }

    method WeakValueEntry(r: Ref, i: nat, clears: bool) returns (c: bool)
      modifies this
      ensures (S(), c) == T.WeakValueEntry(old(S()), r, i, clears)
    {
      var e := EntryAt(r, i);
      c := clears;
      if e.val == Nil {
        RemoveEntry(r, i);
      } else {
        MarkValue(e.key);
        if !clears { c := Cleared(e.val); }
      }
    }

    method TraverseEphemeron(r: Ref) returns (marked: bool)
      requires r in heap && heap[r].Table?
      modifies this
      ensures (S(), marked) == T.TraverseEphemeron(old(S()), r)
    {
      hide T.EphemeronEntry, CS.Mark, T.EphemeronLink;
      var arr := heap[r].arr;
      var n := |heap[r].hash|;
      var f := T.Found(false, false, false);
      ghost var s0, f0 := S(), f;
      var i := 0;
      assert arr[0..] == arr;
      while i < |arr|
        invariant 0 <= i <= |arr|
        invariant T.EphemeronArray(S(), arr[i..], f) == T.EphemeronArray(s0, arr, f0)
      {
        assert arr[i..][0] == arr[i] && arr[i..][1..] == arr[i + 1..];
        if White(arr[i]) {
          f := f.(marked := true);
          Mark(arr[i].ref);
        }
        i := i + 1;
      }
      ghost var s1, f1 := S(), f;
      i := 0;
      while i < n
        invariant 0 <= i <= n
        invariant T.EphemeronEntries(S(), r, i, n, f) == T.EphemeronEntries(s1, r, 0, n, f1)
      {
        f := EphemeronEntry(r, i, f);
        i := i + 1;
      }
      EphemeronLink(r, f);
      return f.marked;
    }

    method EphemeronEntry(r: Ref, i: nat, f: T.Found) returns (f': T.Found)
      modifies this
      ensures (S(), f') == T.EphemeronEntry(old(S()), r, i, f)
    {
      hide CS.Mark, T.Cleared;
      var e := EntryAt(r, i);
      f' := f;
      if e.val == Nil {
        RemoveEntry(r, i);
        return;
      }
      var cleared := Cleared(e.key);
      if cleared {
        f' := f.(clears := true);
        if White(e.val) { f' := f'.(prop := true); }
      } else if White(e.val) {
        f' := f.(marked := true);
        Mark(e.val.ref);
      }
    }

    method EphemeronLink(r: Ref, f: T.Found)
      modifies this
      ensures S() == T.EphemeronLink(old(S()), r, f)
    {
      if phase != Atomic || f.prop {
        ephemeron := [r] + ephemeron;
      } else if f.clears {
        allweak := [r] + allweak;
      } else {
        grayagain := [r] + grayagain;
      }
    }

    method TraverseStrong(r: Ref)
      requires r in heap && heap[r].Table?
      modifies this
      ensures S() == T.TraverseStrong(old(S()), r)
    {
      hide T.StrongEntry, T.MarkAll;
      var n := |heap[r].hash|;
      MarkAll(heap[r].arr);
      ghost var s1 := S();
      var i := 0;
      while i < n
        invariant 0 <= i <= n
        invariant T.StrongEntries(S(), r, i, n) == T.StrongEntries(s1, r, 0, n)
      {
        StrongEntry(r, i);
        i := i + 1;
      }
    }

    method StrongEntry(r: Ref, i: nat)
      modifies this
      ensures S() == T.StrongEntry(old(S()), r, i)
    {
      var e := EntryAt(r, i);
      if e.val == Nil {
        RemoveEntry(r, i);
      } else {
        MarkValue(e.key);
        MarkValue(e.val);
      }
    }

    method TraverseTable(r: Ref)
      requires r in heap && heap[r].Table?
      modifies this
      ensures S() == T.TraverseTable(old(S()), r)
    {
      hide T.TraverseStrong, T.TraverseWeakValue, T.TraverseEphemeron, CS.MarkValue;
      var mode := heap[r].mode;
      MarkValueMarks(S(), heap[r].meta);
      MarkValue(heap[r].meta);
      if mode != Strong { Regray(r); }
      match mode {
        case Strong => TraverseStrong(r);
        case WeakValues => TraverseWeakValue(r);
        case WeakKeys => var _ := TraverseEphemeron(r);
        case AllWeak => allweak := [r] + allweak;
      }
    }

    // ----- other objects -----

    method TraverseProto(r: Ref)
      requires r in heap && heap[r].Proto?
      modifies this
      ensures S() == T.TraverseProto(old(S()), r)
    {
      hide T.MarkAll;
      var p := heap[r];
      if White(p.cache) { heap := heap[r := p.(cache := Nil)]; }
      MarkAll(p.refs);
    }

    method TraverseStack(r: Ref)
      requires r in heap && heap[r].Thread?
      modifies this
      ensures S() == T.TraverseStack(old(S()), r)
    {
      hide T.MarkAll;
      ghost var s := S();
      T.MarkAllVisits(s, heap[r].stack[..T.Used(heap[r])]);
      MarkAll(heap[r].stack[..T.Used(heap[r])]);
      if phase == Atomic && r in heap && heap[r].Thread? {
        heap := heap[r := heap[r].(stack := T.Truncated(heap[r]))];
      }
    }

    /** The case of a thread in `propagatemark` */
    method TraverseThread(r: Ref)
      requires r in heap && heap[r].Thread?
      modifies this
      ensures S() == T.TraverseStack(T.Regray(T.LinkAgain(old(S()), r), r), r)
    {
      hide T.TraverseStack;
      grayagain := [r] + grayagain;
      Regray(r);
      TraverseStack(r);
    }

    /** `propagatemark` */
    method PropagateMark()
      requires gray != []
      modifies this
      ensures S() == T.PropagateMark(old(S()))
    {
      hide T.MarkAll, T.TraverseTable, T.TraverseStack, T.TraverseProto, T.LinkAgain, T.Regray;
      var r := gray[0];
      Blacken(r);
      gray := gray[1..];
      if r in heap {
        match heap[r] {
          case Table(_, _, _, _) => TraverseTable(r);
          case Closure(refs) => MarkAll(refs);
          case Thread(_, _, _) => TraverseThread(r);
          case Proto(_, _) => TraverseProto(r);
          case _ =>
        }
      }
    }

    /** `propagateall` */
    method PropagateAll()
      modifies this
      ensures S() == T.PropagateAll(old(S()))
    {
      hide T.PropagateMark, Load;
      while gray != []
        invariant T.PropagateAll(S()) == T.PropagateAll(old(S()))
        decreases Load(S())
      {
        T.PropagateMarkVisits(S());
        PropagateMark();
      }
    }

    // ----- the atomic phase -----

    method PropagateList(l: seq<Ref>)
      modifies this
      ensures S() == A.PropagateList(old(S()), l)
    {
      hide T.PropagateAll;
      gray := l;
      PropagateAll();
    }

    method RetraverseGrays()
      modifies this
      ensures S() == A.RetraverseGrays(old(S()))
    {
      hide T.PropagateAll;
      var oldWeak, oldAgain, oldEphemeron := weak, grayagain, ephemeron;
      weak, grayagain, ephemeron := [], [], [];
      PropagateAll();
      PropagateList(oldAgain);
      PropagateList(oldWeak);
      PropagateList(oldEphemeron);
    }

    method RemarkUpvals()
      modifies this
      ensures S() == A.RemarkUpvals(old(S()), old(uvhead))
    {
      hide CS.MarkValue;
      var uvs := uvhead;
      var i := 0;
      assert uvs[0..] == uvs;
      while i < |uvs|
        invariant 0 <= i <= |uvs|
        invariant A.RemarkUpvals(S(), uvs[i..]) == A.RemarkUpvals(old(S()), uvs)
      {
        assert uvs[i..][0] == uvs[i] && uvs[i..][1..] == uvs[i + 1..];
        if Grayed(uvs[i]) && heap[uvs[i]].OpenUpval? { MarkValue(SlotOf(heap[uvs[i]].thread, heap[uvs[i]].idx)); }
        i := i + 1;
      }
    }

    /** `convergeephemerons` */
    method ConvergeEphemerons()
      modifies this
      ensures S() == A.Converge(old(S()))
    {
      hide T.PropagateAll, A.VisitEphemeron;
      var changed := true;
      ghost var goal := A.Converge(S());
      while changed
        invariant changed ==> A.Converge(S()) == goal
        invariant !changed ==> S() == goal
        decreases |Whites(S())|, changed
      {
        ghost var s := S();
        A.RoundVisits(s.(ephemeron := []), s.ephemeron, false);
        A.DetachWhites(s);
        var next := ephemeron;
        ephemeron := [];
        changed := Round(next);
      }
    }

    method Round(next: seq<Ref>) returns (changed: bool)
      modifies this
      ensures (S(), changed) == A.Round(old(S()), next, false)
    {
      hide T.PropagateAll, A.VisitEphemeron;
      changed := false;
      var i := 0;
      assert next[0..] == next;
      while i < |next|
        invariant 0 <= i <= |next|
        invariant A.Round(S(), next[i..], changed) == A.Round(old(S()), next, false)
      {
        assert next[i..][0] == next[i] && next[i..][1..] == next[i + 1..];
        var marked := VisitEphemeron(next[i]);
        if marked {
          PropagateAll();
          changed := true;
        }
        i := i + 1;
      }
    }

    method VisitEphemeron(r: Ref) returns (marked: bool)
      modifies this
      ensures (S(), marked) == A.VisitEphemeron(old(S()), r)
    {
      hide T.TraverseEphemeron;
      marked := false;
      if r in heap && heap[r].Table? { marked := TraverseEphemeron(r); }
    }

    method ClearEntry(r: Ref, i: nat, byKey: bool)
      modifies this
      ensures S() == A.ClearEntry(old(S()), r, i, byKey)
    {
      hide T.Cleared;
      var e := EntryAt(r, i);
      if e.val != Nil {
        var b := Cleared(if byKey then e.key else e.val);
        if b {
          SetEntry(r, i, Entry(e.key, Nil));
          RemoveEntry(r, i);
        }
      }
    }

    method ClearEntries(r: Ref, byKey: bool)
      modifies this
      ensures S() == A.ClearEntries(old(S()), r, 0, A.HashSize(old(S()), r), byKey)
    {
      hide A.ClearEntry;
      var n := if r in heap && heap[r].Table? then |heap[r].hash| else 0;
      var i := 0;
      while i < n
        invariant 0 <= i <= n
        invariant A.ClearEntries(S(), r, i, n, byKey) == A.ClearEntries(old(S()), r, 0, n, byKey)
      {
        ClearEntry(r, i, byKey);
        i := i + 1;
      }
    }

    method ClearSlots(r: Ref)
      modifies this
      ensures S() == A.ClearSlots(old(S()), r, 0, A.ArraySize(old(S()), r))
    {
      hide A.ClearSlot;
      var n := if r in heap && heap[r].Table? then |heap[r].arr| else 0;
      var i := 0;
      while i < n
        invariant 0 <= i <= n
        invariant A.ClearSlots(S(), r, i, n) == A.ClearSlots(old(S()), r, 0, n)
      {
        ClearSlot(r, i);
        i := i + 1;
      }
    }

    method ClearSlot(r: Ref, i: nat)
      modifies this
      ensures S() == A.ClearSlot(old(S()), r, i)
    {
      hide T.Cleared;
      if r in heap && heap[r].Table? && i < |heap[r].arr| {
        var t := heap[r];
        var b := Cleared(t.arr[i]);
        if b { heap := heap[r := t.(arr := t.arr[i := Nil])]; }
      }
    }

    method ClearKeys(l: seq<Ref>)
      modifies this
      ensures S() == A.ClearKeys(old(S()), l)
    {
      hide A.ClearEntries;
      var i := 0;
      assert l[0..] == l;
      while i < |l|
        invariant 0 <= i <= |l|
        invariant A.ClearKeys(S(), l[i..]) == A.ClearKeys(old(S()), l)
      {
        assert l[i..][0] == l[i] && l[i..][1..] == l[i + 1..];
        ClearEntries(l[i], true);
        i := i + 1;
      }
    }

    method ClearValues(l: seq<Ref>)
      modifies this
      ensures S() == A.ClearValues(old(S()), l)
    {
      hide A.ClearEntries, A.ClearSlots;
      var i := 0;
      assert l[0..] == l;
      while i < |l|
        invariant 0 <= i <= |l|
        invariant A.ClearValues(S(), l[i..]) == A.ClearValues(old(S()), l)
      {
        assert l[i..][0] == l[i] && l[i..][1..] == l[i + 1..];
        ClearSlots(l[i]);
        ClearEntries(l[i], false);
        i := i + 1;
      }
    }

    /** `atomic` */
    method AtomicStep()
      modifies this
      ensures S() == A.AtomicStep(old(S()))
    {
      MarkRest();
      ClearWeak();
      current := !current;
    }

    method MarkRest()
      modifies this
      ensures S() == A.MarkRest(old(S()))
    {
      hide CS.MarkValue, T.MarkAll, A.RemarkUpvals, T.PropagateAll, A.RetraverseGrays, A.Converge;
      ghost var s0 := S().(phase := Atomic);
      T.MarkValueVisits(s0, Obj(running));
      T.MarkAllVisits(CS.MarkValue(s0, Obj(running)), globals);
      phase := Atomic;
      MarkValue(Obj(running));
      MarkAll(globals);
      RemarkUpvals();
      PropagateAll();
      RetraverseGrays();
      ConvergeEphemerons();
    }

    method ClearWeak()
      modifies this
      ensures S() == A.ClearWeak(old(S()))
    {
      hide A.ClearValues, A.ClearKeys;
      ClearValues(weak);
      ClearValues(allweak);
      ClearKeys(ephemeron);
      ClearKeys(allweak);
    }

    method MarkRoots()
      modifies this
      ensures S() == T.MarkAll(CS.MarkValue(old(S()), Obj(old(main))), old(globals))
    {
      hide CS.MarkValue, T.MarkAll;
      var roots := globals;
      MarkValue(Obj(main));
      MarkAll(roots);
    }

    /** `restartcollection` */
    method Restart()
      modifies this
      ensures S() == A.Restart(old(S()))
    {
      hide CS.MarkValue, T.MarkAll, Whites;
      ghost var s := S();
      gray, grayagain, weak, allweak, ephemeron := [], [], [], [], [];
      ghost var s0 := s.(gray := [], grayagain := [], weak := [], allweak := [], ephemeron := []);
      assert S() == s0;
      MarkRoots();
      ghost var s2 := S();
      phase := Propagate;
      assert S() == s2.(phase := Propagate);
    }

    // ----- sweeping -----

    method Drop(r: Ref)
      modifies this`heap, this`color
      ensures S() == W.Drop(old(S()), r)
    {
      heap := heap - {r};
      color := color - {r};
    }

    method Whiten(r: Ref)
      modifies this`color
      ensures S() == W.Whiten(old(S()), r)
    {
      color := color[r := Color.White(current)];
    }

    method SetOpen(t: Ref, l: seq<Ref>)
      modifies this`heap
      ensures S() == W.SetOpen(old(S()), t, l)
    {
      if t in heap && heap[t].Thread? { heap := heap[t := heap[t].(open := l)]; }
    }

    function OpenList(t: Ref): (l: seq<Ref>)
      reads this
      ensures l == W.OpenList(S(), t)
    {
      if t in heap && heap[t].Thread? then heap[t].open else []
    }

    function LevelOf(uv: Ref): (n: nat)
      reads this
      ensures n == W.Level(S(), uv)
    {
      if uv in heap && heap[uv].OpenUpval? then heap[uv].idx else 0
    }

    method FreeUpval(uv: Ref)
      modifies this
      ensures S() == W.FreeUpval(old(S()), uv)
    {
      uvhead := W.Without(uvhead, uv);
      Drop(uv);
    }

    /** One round of `luaF_close`. */
    method CloseFirst(t: Ref)
      requires OpenList(t) != []
      modifies this
      ensures S() == W.CloseFirst(old(S()), t)
    {
      hide CS.MarkValue;
      var uv := OpenList(t)[0];
      var dead := IsDead(uv);
      var v := if uv in heap && heap[uv].OpenUpval? then SlotOf(heap[uv].thread, heap[uv].idx) else Nil;
      SetOpen(t, OpenList(t)[1..]);
      if dead {
        FreeUpval(uv);
      } else {
        uvhead := W.Without(uvhead, uv);
        heap := heap[uv := Upval(v)];
        before := [uv] + before;
        if Grayed(uv) {
          if W.KeepsInvariant(phase) {
            Blacken(uv);
            MarkValue(v);
          } else {
            Whiten(uv);
          }
        }
      }
    }

    /** `luaF_close` */
    method CloseUpvals(t: Ref, level: nat)
      modifies this
      ensures S() == W.CloseUpvals(old(S()), t, level)
      ensures CollectorInvariant.Inv(old(S())) ==>
          CollectorInvariant.Inv(S()) && OpenUpvals.ClosedFrom(old(S()), S(), t, level)
    {
      hide W.CloseFirst, CollectorInvariant.Inv, OpenUpvals.ClosedFrom;
      ghost var s0 := S();
      while OpenList(t) != [] && LevelOf(OpenList(t)[0]) >= level
        invariant W.CloseUpvals(S(), t, level) == W.CloseUpvals(old(S()), t, level)
        decreases |OpenList(t)|
      {
        W.CloseFirstShorter(S(), t);
        CloseFirst(t);
      }
      if CollectorInvariant.Inv(s0) {
        OpenUpvals.CloseInv(s0, t, level);
        OpenUpvals.CloseExact(s0, t, level);
      }
    }

    method FreeObject(r: Ref)
      modifies this
      ensures S() == W.FreeObject(old(S()), r)
    {
      hide W.CloseUpvals;
      if r in heap && heap[r].Thread? { CloseUpvals(r, 0); }
      Drop(r);
    }

    /** `sweepthread` */
    method SweepUpvals(t: Ref)
      modifies this
      ensures S() == W.SweepUpvals(old(S()), t, 0)
    {
      var i := 0;
      while i < |OpenList(t)|
        invariant W.SweepUpvals(S(), t, i) == W.SweepUpvals(old(S()), t, 0)
        decreases |OpenList(t)| - i
      {
        var l := OpenList(t);
        if IsDead(l[i]) {
          SetOpen(t, l[..i] + l[i + 1..]);
          FreeUpval(l[i]);
        } else {
          Whiten(l[i]);
          i := i + 1;
        }
      }
    }

    method KeepObject(r: Ref)
      modifies this
      ensures S() == W.KeepObject(old(S()), r)
    {
      hide W.SweepUpvals;
      if r in heap && heap[r].Thread? { SweepUpvals(r); }
      Whiten(r);
    }

    method SweepObject()
      requires after != []
      modifies this
      ensures S() == W.SweepObject(old(S()))
    {
      hide W.FreeObject, W.KeepObject;
      var r := after[0];
      after := after[1..];
      if IsDead(r) {
        FreeObject(r);
      } else {
        before := before + [r];
        KeepObject(r);
      }
    }

    /** `sweeplist` */
    method SweepObjects(n: nat)
      modifies this
      ensures S() == W.SweepObjects(old(S()), n)
    {
      hide W.SweepObject;
      var k := n;
      while k > 0 && after != []
        invariant W.SweepObjects(S(), k) == W.SweepObjects(old(S()), n)
      {
        SweepObject();
        k := k - 1;
      }
    }

    method SweepString1()
      requires strAfter != []
      modifies this
      ensures S() == W.SweepString1(old(S()))
    {
      var r := strAfter[0];
      strAfter := strAfter[1..];
      if IsDead(r) {
        Drop(r);
      } else {
        strBefore := strBefore + [r];
        Whiten(r);
      }
    }

    method SweepStrings(n: nat)
      modifies this
      ensures S() == W.SweepStrings(old(S()), n)
    {
      hide W.SweepString1;
      var k := n;
      while k > 0 && strAfter != []
        invariant W.SweepStrings(S(), k) == W.SweepStrings(old(S()), n)
      {
        SweepString1();
        k := k - 1;
      }
    }

    /** `sweeptolive` */
    method SweepToLive(n: nat)
      modifies this
      ensures S() == W.SweepToLive(old(S()), n)
    {
      hide W.SweepObject;
      var k := n;
      while k > 0 && after != [] && IsDead(after[0])
        invariant W.SweepToLive(S(), k) == W.SweepToLive(old(S()), n)
      {
        SweepObject();
        k := k - 1;
      }
      if k > 0 && after != [] { SweepObject(); }
    }

    method EnterSweep()
      modifies this
      ensures S() == W.EnterSweep(old(S()))
    {
      hide W.SweepToLive;
      ghost var s := S();
      phase := SweepString;
      strBefore, strAfter := [], strBefore + strAfter;
      before, after := [], before + after;
      assert S() == s.(phase := SweepString, strBefore := [], strAfter := s.strBefore + s.strAfter,
                       before := [], after := s.before + s.after);
      SweepToLive(|after|);
    }

    /** `singlestep` */
    method SingleStep(n: nat)
      modifies this
      ensures S() == W.SingleStep(old(S()), n)
      ensures CollectorInvariant.Inv(old(S())) ==> CollectorInvariant.Inv(S())
    {
      ghost var s0 := S();
      hide A.Restart, T.PropagateMark, W.EnterSweep, A.AtomicStep, W.SweepStrings, W.SweepObjects, W.KeepObject;
      match phase {
        case Pause => Restart();
        case Propagate =>
          if gray != [] {
            PropagateMark();
          } else {
            AtomicStep();
            EnterSweep();
          }
        case SweepString =>
          SweepStrings(n);
          if strAfter == [] { phase := SweepUdata; }
        case SweepUdata => phase := Sweep;
        case Sweep =>
          if after != [] {
            SweepObjects(n);
          } else {
            KeepObject(main);
            phase := Pause;
          }
        case Atomic =>
      }
      hide CollectorInvariant.Inv, W.SingleStep;
      if CollectorInvariant.Inv(s0) { CollectorSteps.SingleStepOk(s0, n); }
    }

    /** `luaC_runtilstate` up to the end of the cycle: the invariant holds again, and nothing is left outside any set
        that has all that the cycle must keep. */
    method RunTilPause(n: nat)
      requires CollectorInvariant.Inv(S()) && n > 0
      modifies this
      ensures CollectorInvariant.Inv(S()) && phase == Pause && S() == CollectorRuns.FinishCycle(old(S()), n)
      ensures old(phase) != Pause ==> forall c: set<Ref> :: CollectorSteps.Needed(old(S()), c) ==> heap.Keys <= c
    {
      hide CollectorInvariant.Inv, W.SingleStep, CollectorSteps.Needed;
      ghost var s0 := S();
      while phase != Pause
        invariant CollectorInvariant.Inv(S()) && CollectorRuns.FinishCycle(S(), n) == CollectorRuns.FinishCycle(s0, n)
        decreases CollectorRuns.Remaining(S()).0, CollectorRuns.Remaining(S()).1
      {
        CollectorRuns.StepProgress(S(), n);
        SingleStep(n);
      }
      if s0.phase != Pause {
        forall c: set<Ref> | CollectorSteps.Needed(s0, c)
          ensures heap.Keys <= c
        {
          CollectorRuns.FinishOk(s0, n, c);
        }
      }
    }

    // ----- barriers -----

    /** `luaC_barrier` */
    method Barrier(o: Ref, v: Value)
      modifies this
      ensures S() == M.Barrier(old(S()), o, v)
    {
      if White(v) && o in color && color[o] == Black {
        if W.KeepsInvariant(phase) { Mark(v.ref); } else { Whiten(o); }
      }
    }

    /** `luaC_barrierback` */
    method BarrierBack(o: Ref, v: Value)
      modifies this
      ensures S() == M.BarrierBack(old(S()), o, v)
    {
      if White(v) && o in color && color[o] == Black {
        Regray(o);
        grayagain := [o] + grayagain;
      }
    }

    /** `luaC_barrierproto` */
    method BarrierProto(p: Ref, c: Value)
      requires p in heap && heap[p].Proto?
      modifies this
      ensures S() == M.BarrierProto(old(S()), p, c)
    {
      if p in color && color[p] == Black {
        if heap[p].cache == Nil {
          Barrier(p, c);
        } else {
          Regray(p);
          grayagain := [p] + grayagain;
        }
      }
    }
  }
}

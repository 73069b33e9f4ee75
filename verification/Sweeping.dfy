/** The sweep phase, and the steps of the collector as a whole. */
module Sweeping {
  import opened CollectorState
  import opened Traversal
  import opened AtomicPhase

  /** The list without the first occurrence of an element. */
  function Without(l: seq<Ref>, x: Ref): seq<Ref>
    decreases |l|
  {
    if l == [] then [] else if l[0] == x then l[1..] else [l[0]] + Without(l[1..], x)
  }

  function Drop(s: State, r: Ref): State {
    s.(heap := s.heap - {r}, color := s.color - {r})
  }

  /** `makewhite` */
  function Whiten(s: State, r: Ref): State {
    s.(color := s.color[r := White(s.current)])
  }

  /** `luaF_freeupval` for an open upvalue */
  function FreeUpval(s: State, uv: Ref): State {
    Drop(s.(uvhead := Without(s.uvhead, uv)), uv)
  }

  function OpenList(s: State, t: Ref): seq<Ref> {
    if t in s.heap && s.heap[t].Thread? then s.heap[t].open else []
  }

  function SetOpen(s: State, t: Ref, l: seq<Ref>): State {
    if t in s.heap && s.heap[t].Thread? then s.(heap := s.heap[t := s.heap[t].(open := l)]) else s
  }

  // ----- closing upvalues (`luaF_close`) -----

  function KeepsInvariant(p: Phase): bool { p == Propagate || p == Atomic }

  /** `luaC_checkupvalcolor`: the closed upvalue is visited now, or swept. */
  function CheckUpvalColor(s: State, uv: Ref): State
    requires uv in s.heap && s.heap[uv].Upval?
  {
    if uv in s.color && s.color[uv] == Gray then
      if KeepsInvariant(s.phase) then MarkValue(Blacken(s, uv), s.heap[uv].value) else Whiten(s, uv)
    else s
  }

  /** Closes the first open upvalue of the thread; a dead one is freed. */
  function CloseFirst(s: State, t: Ref): State
    requires OpenList(s, t) != []
  {
    var uv := OpenList(s, t)[0];
    var s1 := SetOpen(s, t, OpenList(s, t)[1..]);
    if Dead(s, uv) then FreeUpval(s1, uv)
    else
      var v := if uv in s.heap && s.heap[uv].OpenUpval? then Slot(s.heap, s.heap[uv].thread, s.heap[uv].idx) else Nil;
      var s2 := s1.(uvhead := Without(s1.uvhead, uv), heap := s1.heap[uv := Upval(v)], before := [uv] + s1.before);
      CheckUpvalColor(s2, uv)
  }

  lemma CloseFirstShorter(s: State, t: Ref)
    requires OpenList(s, t) != []
    ensures |OpenList(CloseFirst(s, t), t)| < |OpenList(s, t)|
  {
    var uv := OpenList(s, t)[0];
    var s1 := SetOpen(s, t, OpenList(s, t)[1..]);
    if !Dead(s, uv) {
      var v := if uv in s.heap && s.heap[uv].OpenUpval? then Slot(s.heap, s.heap[uv].thread, s.heap[uv].idx) else Nil;
      var s2 := s1.(uvhead := Without(s1.uvhead, uv), heap := s1.heap[uv := Upval(v)], before := [uv] + s1.before);
      MarkValueMarks(Blacken(s2, uv), v);
    }
  }

  function Level(s: State, uv: Ref): nat {
    if uv in s.heap && s.heap[uv].OpenUpval? then s.heap[uv].idx else 0
  }

  /** Closes the upvalues at `level` and above, which come first in the list. */
  function CloseUpvals(s: State, t: Ref, level: nat): State
    decreases |OpenList(s, t)|
  {
    if OpenList(s, t) == [] || Level(s, OpenList(s, t)[0]) < level then s
    else
      CloseFirstShorter(s, t);
      CloseUpvals(CloseFirst(s, t), t, level)
  }

  // ----- freeing and sweeping -----

  /** `freeobj`: a thread closes its upvalues first. */
  function FreeObject(s: State, r: Ref): State {
    if r in s.heap && s.heap[r].Thread? then Drop(CloseUpvals(s, r, 0), r) else Drop(s, r)
  }

  /** `sweepthread`: the open upvalues that are dead are freed, the others turn white. */
  function SweepUpvals(s: State, t: Ref, i: nat): State
    decreases |OpenList(s, t)| - i
  {
    var l := OpenList(s, t);
    if i >= |l| then s
    else if Dead(s, l[i]) then SweepUpvals(FreeUpval(SetOpen(s, t, l[..i] + l[i + 1..]), l[i]), t, i)
    else SweepUpvals(Whiten(s, l[i]), t, i + 1)
  }

  function KeepObject(s: State, r: Ref): State {
    Whiten(if r in s.heap && s.heap[r].Thread? then SweepUpvals(s, r, 0) else s, r)
  }

  /** `sweeplist` on the list of all objects, for at most `n` elements */
  function SweepObjects(s: State, n: nat): State
    decreases n
  {
    if n == 0 || s.after == [] then s else SweepObjects(SweepObject(s), n - 1)
  }

  function SweepObject(s: State): State
    requires s.after != []
  {
    var r := s.after[0];
    var s1 := s.(after := s.after[1..]);
    if Dead(s, r) then FreeObject(s1, r) else KeepObject(s1.(before := s1.before + [r]), r)
  }

  /** `sweeplist` on the short strings */
  function SweepStrings(s: State, n: nat): State
    decreases n
  {
    if n == 0 || s.strAfter == [] then s else SweepStrings(SweepString1(s), n - 1)
  }

  function SweepString1(s: State): State
    requires s.strAfter != []
  {
    var r := s.strAfter[0];
    var s1 := s.(strAfter := s.strAfter[1..]);
    if Dead(s, r) then Drop(s1, r) else Whiten(s1.(strBefore := s1.strBefore + [r]), r)
  }

  /** `sweeptolive`, with a bound on the number of elements */
  function SweepToLive(s: State, n: nat): State
    decreases n
  {
    if n == 0 || s.after == [] then s
    else if Dead(s, s.after[0]) then SweepToLive(SweepObject(s), n - 1)
    else SweepObject(s)
  }

  /** `entersweep`: the whole lists are to be swept; objects created from now on need no sweep. */
  function EnterSweep(s: State): State {
    var s1 := s.(phase := SweepString, strBefore := [], strAfter := s.strBefore + s.strAfter,
                 before := [], after := s.before + s.after);
    SweepToLive(s1, |s1.after|)
  }

  /** `singlestep`; `n` bounds the elements that a sweep step handles. */
  function SingleStep(s: State, n: nat): State {
    match s.phase
    case Pause => Restart(s)
    case Propagate => if s.gray != [] then PropagateMark(s) else EnterSweep(AtomicStep(s))
    case SweepString =>
      var s1 := SweepStrings(s, n);
      if s1.strAfter == [] then s1.(phase := SweepUdata) else s1
    case SweepUdata => s.(phase := Sweep)
    case Sweep => if s.after != [] then SweepObjects(s, n) else KeepObject(s, s.main).(phase := Pause)
    case Atomic => s
  }
}

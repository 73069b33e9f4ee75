/** What every step keeps, in every phase, and what it means for the objects a program can reach. */
module CollectorInvariant {
  import opened CollectorState
  import opened Tricolor

  // ----- the structure of the heap -----

  function IdxOf(h: map<Ref, Object>, x: Ref): int {
    if x in h && h[x].OpenUpval? then h[x].idx else -1
  }

  /** The upvalues of higher slots come first. */
  ghost predicate Descending(h: map<Ref, Object>, l: seq<Ref>) {
    forall i, j :: 0 <= i < j < |l| ==> IdxOf(h, l[i]) > IdxOf(h, l[j])
  }

  /** The open upvalues of a thread. */
  ghost predicate OpenListOk(h: map<Ref, Object>, t: Ref)
    requires t in h && h[t].Thread?
  {
    && (forall x :: x in h[t].open ==> x in h && h[x].OpenUpval? && h[x].thread == t && h[x].idx < |h[t].stack|)
    && (forall x :: multiset(h[t].open)[x] <= 1)
    && Descending(h, h[t].open)
  }

  ghost predicate OpenListsOk(h: map<Ref, Object>) {
    forall t :: t in h && h[t].Thread? ==> OpenListOk(h, t)
  }

  ghost predicate Hooked(h: map<Ref, Object>) {
    forall x :: x in h && h[x].OpenUpval? ==>
      h[x].thread in h && h[h[x].thread].Thread? && x in h[h[x].thread].open
  }

  /** The list of all open upvalues. */
  ghost predicate HeadOk(h: map<Ref, Object>, uvhead: seq<Ref>) {
    forall x :: multiset(uvhead)[x] == if x in h && h[x].OpenUpval? then 1 else 0
  }

  ghost predicate NeverBlack(h: map<Ref, Object>, color: map<Ref, Color>) {
    forall x :: x in h && x in color && h[x].OpenUpval? ==> color[x] != Black
  }

  ghost predicate UpvalsOk(s: State) {
    OpenListsOk(s.heap) && Hooked(s.heap) && HeadOk(s.heap, s.uvhead) && NeverBlack(s.heap, s.color)
  }

  predicate InStringTable(h: map<Ref, Object>, x: Ref) {
    x in h && h[x] == Str(true)
  }

  predicate InObjectList(s: State, x: Ref) {
    x in s.heap && s.heap[x] != Str(true) && !s.heap[x].OpenUpval? && x != s.main
  }

  function StringCounts(s: State): multiset<Ref> { multiset(s.strBefore) + multiset(s.strAfter) }
  function ObjectCounts(s: State): multiset<Ref> { multiset(s.before) + multiset(s.after) }

  /** Every object is in exactly one of the lists that are swept. */
  ghost predicate PlacesOk(s: State, loose: set<Ref>) {
    && (forall x :: StringCounts(s)[x] == if InStringTable(s.heap, x) then 1 else 0)
    && (forall x :: ObjectCounts(s)[x] == if InObjectList(s, x) && x !in loose then 1 else 0)
  }

  ghost predicate Wf(s: State, loose: set<Ref>) {
    && s.color.Keys == s.heap.Keys
    && UpvalsOk(s) && PlacesOk(s, loose)
    && s.main in s.heap && s.heap[s.main].Thread?
    && s.running in s.heap && s.heap[s.running].Thread?
  }

  // ----- no references to dead objects -----

  ghost predicate AliveClosed(s: State) {
    forall r :: r in Alive(s) ==> r in s.heap && Within(s.heap, r, Alive(s))
  }

  predicate RootsAlive(s: State) {
    s.main in Alive(s) && s.running in Alive(s) && AllIn(s.globals, Alive(s))
  }

  ghost predicate Live(s: State) {
    AliveClosed(s) && RootsAlive(s)
  }

  // ----- the phases -----

  /** Open upvalues that are marked; stack writes may have changed their values. */
  function GrayOpens(s: State): set<Ref> {
    set r | r in s.heap && r in s.color && s.heap[r].OpenUpval? && s.color[r] == Gray
  }

  /** Outside the atomic phase only all-weak tables are not visited again. */
  ghost predicate OnlyAllWeak(s: State) {
    forall r :: r in s.allweak ==> r in s.heap && s.heap[r].Table? && s.heap[r].mode.AllWeak?
  }

  ghost predicate Marking(s: State) {
    Tri(s, GrayOpens(s)) && OnlyAllWeak(s) && s.main in Marked(s)
  }

  /** The object will be swept before the cycle ends. */
  predicate ToSweep(s: State, r: Ref, pending: set<Ref>) {
    || r in s.after || r in s.strAfter || r == s.main || r in pending
    || (r in s.heap && s.heap[r].OpenUpval?
        && (s.heap[r].thread in s.after || s.heap[r].thread == s.main || s.heap[r].thread in pending))
  }

  /** All objects that are not white again are still to be swept. */
  ghost predicate Swept(s: State, pending: set<Ref>) {
    forall r :: r in s.heap && r in s.color ==> s.color[r] == White(s.current) || ToSweep(s, r, pending)
  }

  predicate IsSweeping(p: Phase) {
    p == SweepString || p == SweepUdata || p == Sweep
  }

  ghost predicate AllWhite(s: State) {
    forall r :: r in s.heap && r in s.color ==> s.color[r] == White(s.current)
  }

  ghost predicate Inv(s: State) {
    && Wf(s, {}) && Live(s)
    && match s.phase
       case Pause => AllWhite(s)
       case Propagate => Marking(s)
       case Atomic => false
       case SweepString => Swept(s, {})
       case SweepUdata => Swept(s, {}) && s.strAfter == []
       case Sweep => Swept(s, {}) && s.strAfter == []
  }

  // ----- what a program can reach -----

  /** `x` is named by the object `r`, weakly or not. */
  ghost predicate Names(h: map<Ref, Object>, r: Ref, x: Ref)
    requires r in h
  {
    forall p: set<Ref> :: Within(h, r, p) ==> x in p
  }

  predicate IsRoot(s: State, x: Ref) {
    x == s.main || x == s.running || Obj(x) in s.globals
  }

  ghost predicate Path(s: State, p: seq<Ref>) {
    && p != [] && IsRoot(s, p[0])
    && forall i :: 0 <= i < |p| - 1 ==> p[i] in s.heap && Names(s.heap, p[i], p[i + 1])
  }

  /** A program can reach the object, also through weak tables and closure caches. */
  ghost predicate Accessible(s: State, x: Ref) {
    exists p :: Path(s, p) && p[|p| - 1] == x
  }

  lemma {:induction false} PathAlive(s: State, p: seq<Ref>)
    requires Live(s) && Path(s, p)
    ensures p[|p| - 1] in Alive(s)
    decreases |p|
  {
    if |p| == 1 {
      if Obj(p[0]) in s.globals {
        var i :| 0 <= i < |s.globals| && s.globals[i] == Obj(p[0]);
        assert In(s.globals[i], Alive(s));
      }
    } else {
      var q := p[..|p| - 1];
      assert Path(s, q);
      PathAlive(s, q);
      assert Names(s.heap, p[|p| - 2], p[|p| - 1]);
      assert Within(s.heap, q[|q| - 1], Alive(s));
    }
  }

  /** Nothing that a program can reach is dead. */
  lemma AccessibleAlive(s: State, x: Ref)
    requires Live(s) && Accessible(s, x)
    ensures x in Alive(s)
  {
    var p :| Path(s, p) && p[|p| - 1] == x;
    PathAlive(s, p);
  }
}

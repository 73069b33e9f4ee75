/** The atomic phase: marks what is left, finds the fixed point of the ephemeron tables and
    clears the weak tables. */
module AtomicPhase {
  import opened CollectorState
  import opened Traversal

  /** `restartcollection` */
  function Restart(s: State): State {
    var s0 := s.(gray := [], grayagain := [], weak := [], allweak := [], ephemeron := []);
    MarkAll(MarkValue(s0, Obj(s.main)), s.globals).(phase := Propagate)
  }

  /** `remarkupvals`: a stack write may have changed the value of an upvalue that is already marked. */
  function RemarkUpvals(s: State, uvs: seq<Ref>): State
    decreases |uvs|
  {
    if uvs == [] then s else RemarkUpvals(RemarkUpval(s, uvs[0]), uvs[1..])
  }

  function RemarkUpval(s: State, uv: Ref): State {
    if uv in s.heap && uv in s.color && s.color[uv] == Gray && s.heap[uv].OpenUpval?
    then MarkValue(s, Slot(s.heap, s.heap[uv].thread, s.heap[uv].idx))
    else s
  }

  /** `propagatelist` */
  function PropagateList(s: State, l: seq<Ref>): State {
    PropagateAll(s.(gray := l))
  }

  /** `retraversegrays` */
  function RetraverseGrays(s: State): State {
    var s1 := PropagateAll(s.(weak := [], grayagain := [], ephemeron := []));
    PropagateList(PropagateList(PropagateList(s1, s.grayagain), s.weak), s.ephemeron)
  }

  function VisitEphemeron(s: State, r: Ref): (State, bool) {
    if r in s.heap && s.heap[r].Table? then TraverseEphemeron(s, r) else (s, false)
  }

  /** One pass over the ephemeron tables. */
  function Round(s: State, next: seq<Ref>, changed: bool): (State, bool)
    decreases |next|
  {
    if next == [] then (s, changed)
    else
      var (s1, marked) := VisitEphemeron(s, next[0]);
      if marked then Round(PropagateAll(s1), next[1..], true) else Round(s1, next[1..], changed)
  }

  lemma VisitEphemeronVisits(s: State, r: Ref)
    ensures var (s', marked) := VisitEphemeron(s, r);
            Visits(s, s') && (marked ==> |Whites(s')| < |Whites(s)|)
  {
    hide Visits;
    if r in s.heap && s.heap[r].Table? { TraverseEphemeronVisits(s, r); } else { VisitsRefl(s); }
  }

  lemma {:induction false} RoundVisits(s: State, next: seq<Ref>, changed: bool)
    ensures var (s', changed') := Round(s, next, changed);
            Visits(s, s') && (changed ==> changed') && (changed' && !changed ==> |Whites(s')| < |Whites(s)|)
    decreases |next|
  {
    hide Visits, VisitEphemeron, PropagateAll;
    if next == [] {
      VisitsRefl(s);
    } else {
      var (s1, marked) := VisitEphemeron(s, next[0]);
      VisitEphemeronVisits(s, next[0]);
      VisitsWhites(s, s1);
      var s2 := if marked then PropagateAll(s1) else s1;
      PropagateAllVisits(s1);
      VisitsRefl(s1);
      VisitsWhites(s1, s2);
      VisitsTrans(s, s1, s2);
      RoundVisits(s2, next[1..], changed || marked);
      var s' := Round(s2, next[1..], changed || marked).0;
      VisitsWhites(s2, s');
      VisitsTrans(s, s2, s');
    }
  }

  lemma DetachWhites(s: State)
    ensures Whites(s.(ephemeron := [])) == Whites(s)
  {
  }

  /** `convergeephemerons` ends because every round but the last marks an object. */
  function Converge(s: State): State
    decreases |Whites(s)|
  {
    var (s1, changed) := Round(s.(ephemeron := []), s.ephemeron, false);
    RoundVisits(s.(ephemeron := []), s.ephemeron, false);
    DetachWhites(s);
    if changed then Converge(s1) else s1
  }

  // ----- clearing weak tables -----

  /** Empties the entry if its key, or its value, was not marked. */
  function ClearEntry(s: State, r: Ref, i: nat, byKey: bool): State {
    var e := EntryAt(s, r, i);
    if e.val == Nil then s
    else
      var (s1, b) := Cleared(s, if byKey then e.key else e.val);
      if b then RemoveEntry(SetEntry(s1, r, i, Entry(e.key, Nil)), r, i) else s1
  }

  function ClearEntries(s: State, r: Ref, i: nat, n: nat, byKey: bool): State
    decreases n - i
  {
    if i >= n then s else ClearEntries(ClearEntry(s, r, i, byKey), r, i + 1, n, byKey)
  }

  function ClearSlot(s: State, r: Ref, i: nat): State {
    if r in s.heap && s.heap[r].Table? && i < |s.heap[r].arr| then
      var (s1, b) := Cleared(s, s.heap[r].arr[i]);
      if b then s1.(heap := s1.heap[r := s.heap[r].(arr := s.heap[r].arr[i := Nil])]) else s1
    else s
  }

  function ClearSlots(s: State, r: Ref, i: nat, n: nat): State
    decreases n - i
  {
    if i >= n then s else ClearSlots(ClearSlot(s, r, i), r, i + 1, n)
  }

  function HashSize(s: State, r: Ref): nat {
    if r in s.heap && s.heap[r].Table? then |s.heap[r].hash| else 0
  }

  function ArraySize(s: State, r: Ref): nat {
    if r in s.heap && s.heap[r].Table? then |s.heap[r].arr| else 0
  }

  /** `clearkeys` */
  function ClearKeys(s: State, l: seq<Ref>): State
    decreases |l|
  {
    if l == [] then s else ClearKeys(ClearEntries(s, l[0], 0, HashSize(s, l[0]), true), l[1..])
  }

  /** `clearvalues` */
  function ClearValues(s: State, l: seq<Ref>): State
    decreases |l|
  {
    if l == [] then s
    else
      var s1 := ClearSlots(s, l[0], 0, ArraySize(s, l[0]));
      ClearValues(ClearEntries(s1, l[0], 0, HashSize(s1, l[0]), false), l[1..])
  }

  /** The marking part of `atomic`. */
  function MarkRest(s: State): State {
    var s1 := MarkAll(MarkValue(s.(phase := Atomic), Obj(s.running)), s.globals);
    Converge(RetraverseGrays(PropagateAll(RemarkUpvals(s1, s.uvhead))))
  }

  /** The clearing part: no object waits for finalization, so the tables visited again after that are none. */
  function ClearWeak(s: State): State {
    var s1 := ClearValues(s, s.weak);
    var s2 := ClearValues(s1, s1.allweak);
    var s3 := ClearKeys(s2, s2.ephemeron);
    ClearKeys(s3, s3.allweak)
  }

  /** `atomic` ends with the other white as the current one: what is still white is dead. */
  function AtomicStep(s: State): State {
    var s1 := ClearWeak(MarkRest(s));
    s1.(current := !s1.current)
  }
}

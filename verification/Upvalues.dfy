/** Upvalues at run time: while its variable is in the stack an upvalue stands for the slot, and it keeps the
    value when the slot dies. All that captured a variable share it. */
module Upvalues {
  import ScopedCode

  type UpId = nat

  /** A function value is a prototype with its upvalues. */
  datatype Value = Num(n: int) | Fun(p: ScopedCode.Proto, ups: seq<UpId>)

  datatype UpVal = Open(slot: nat) | Closed(value: Value)

  /** A stack, the list of its open upvalues and all upvalues. New upvalues get the name `next`. */
  datatype State = State(stack: seq<Value>, open: seq<UpId>, ups: map<UpId, UpVal>, next: UpId)

  ghost predicate ListOk(s: State) {
    forall i :: 0 <= i < |s.open| ==> s.open[i] in s.ups && s.ups[s.open[i]].Open? && s.ups[s.open[i]].slot < |s.stack|
  }

  ghost predicate Descending(s: State) {
    forall i, j :: 0 <= i < j < |s.open| ==> SlotOf(s, s.open[i]) > SlotOf(s, s.open[j])
  }

  ghost predicate AllListed(s: State) {
    forall x :: x in s.ups && s.ups[x].Open? ==> x in s.open
  }

  /** The list is strictly descending, so no slot has two open upvalues, and has all that are open. */
  ghost predicate Ok(s: State) {
    ListOk(s) && Descending(s) && AllListed(s) && forall x :: x in s.ups ==> x < s.next
  }

  function SlotOf(s: State, x: UpId): int {
    if x in s.ups && s.ups[x].Open? then s.ups[x].slot else -1
  }

  /** The value of an upvalue: what it points to. */
  function Read(s: State, x: UpId): Value {
    if x !in s.ups then Num(0)
    else match s.ups[x]
      case Open(i) => if i < |s.stack| then s.stack[i] else Num(0)
      case Closed(v) => v
  }

  // ----- operations -----

  /** Where the search of `luaF_findupval` stops. */
  function Position(s: State, l: seq<UpId>, level: nat): (i: nat)
    ensures i <= |l|
    decreases |l|
  {
    if l == [] || SlotOf(s, l[0]) <= level then 0 else 1 + Position(s, l[1..], level)
  }

  /** `luaF_findupval` */
  function Find(s: State, level: nat): (State, UpId) {
    var i := Position(s, s.open, level);
    if i < |s.open| && SlotOf(s, s.open[i]) == level then (s, s.open[i])
    else (State(s.stack, s.open[..i] + [s.next] + s.open[i..], s.ups[s.next := Open(level)], s.next + 1), s.next)
  }

  function WriteSlot(s: State, i: nat, v: Value): State
    requires i < |s.stack|
  {
    s.(stack := s.stack[i := v])
  }

  /** `OP_SETUPVAL` */
  function Write(s: State, x: UpId, v: Value): State {
    if x !in s.ups then s
    else match s.ups[x]
      case Open(i) => if i < |s.stack| then s.(stack := s.stack[i := v]) else s
      case Closed(_) => s.(ups := s.ups[x := Closed(v)])
  }

  /** `luaF_close`: the upvalues at `level` and above come first in the list. */
  function Close(s: State, level: nat): State
    decreases |s.open|
  {
    if s.open == [] || SlotOf(s, s.open[0]) < level then s
    else Close(CloseFirst(s), level)
  }

  function CloseFirst(s: State): State
    requires s.open != []
  {
    s.(open := s.open[1..], ups := s.ups[s.open[0] := Closed(Read(s, s.open[0]))])
  }

  // ----- the list -----

  lemma {:induction false} PositionSplits(s: State, l: seq<UpId>, level: nat)
    requires forall i, j :: 0 <= i < j < |l| ==> SlotOf(s, l[i]) > SlotOf(s, l[j])
    ensures var p := Position(s, l, level);
            && (forall i :: 0 <= i < p ==> SlotOf(s, l[i]) > level)
            && (forall i :: p <= i < |l| ==> SlotOf(s, l[i]) <= level)
            && (forall i :: p < i < |l| ==> SlotOf(s, l[i]) < level)
    decreases |l|
  {
    if l != [] && SlotOf(s, l[0]) > level {
      PositionSplits(s, l[1..], level);
      var p := Position(s, l[1..], level);
      assert forall i :: 0 < i < |l| ==> l[i] == l[1..][i - 1];
    }
  }

  /** The upvalue of a slot is found or created, and there is never a second one. */
  lemma FindOk(s: State, level: nat)
    requires Ok(s) && level < |s.stack|
    ensures var (s', x) := Find(s, level);
            && Ok(s') && x in s'.ups && s'.ups[x] == Open(level) && s'.stack == s.stack
            && (forall y :: y in s.ups ==> y in s'.ups && s'.ups[y] == s.ups[y])
            && (forall y :: y in s.ups && s.ups[y] == Open(level) ==> x == y)
            && (forall y :: y in s'.ups && y !in s.ups ==> y == x && y == s.next)
  {
    hide Ok;
    FindCases(s, level);
    var (s', x) := Find(s, level);
    hide Find;
    if x in s.ups {
      assert s' == s;
    } else {
      assert s' == Fresh(s, level, Position(s, s.open, level));
    }
  }

  lemma FindCases(s: State, level: nat)
    requires Ok(s) && level < |s.stack|
    ensures var (s', x) := Find(s, level);
            && Ok(s') && s.next !in s.ups
            && (if x in s.ups then s' == s && s.ups[x] == Open(level)
                else x == s.next && s' == Fresh(s, level, Position(s, s.open, level)))
            && (forall y :: y in s.ups && s.ups[y] == Open(level) ==> x == y)
  {
    var i := Position(s, s.open, level);
    PositionOnly(s, level);
    NextNew(s);
    if i < |s.open| && SlotOf(s, s.open[i]) == level {
      assert s.open[i] in s.ups by { assert ListOk(s); }
    } else {
      FreshOk(s, level, i);
    }
    hide Ok, Position;
  }

  lemma PositionOnly(s: State, level: nat)
    requires Ok(s)
    ensures var i := Position(s, s.open, level);
            && (forall j :: 0 <= j < i ==> SlotOf(s, s.open[j]) > level)
            && (forall j :: i <= j < |s.open| ==> SlotOf(s, s.open[j]) <= level)
            && (forall j :: i < j < |s.open| ==> SlotOf(s, s.open[j]) < level)
            && (forall y :: y in s.ups && s.ups[y] == Open(level) ==> i < |s.open| && s.open[i] == y)
  {
    PositionSplits(s, s.open, level) by { assert Descending(s); }
    FoundOnly(s, level, Position(s, s.open, level));
  }

  lemma FoundOnly(s: State, level: nat, i: nat)
    requires Ok(s) && i <= |s.open|
    requires forall j :: 0 <= j < i ==> SlotOf(s, s.open[j]) > level
    requires forall j :: i < j < |s.open| ==> SlotOf(s, s.open[j]) < level
    ensures forall y :: y in s.ups && s.ups[y] == Open(level) ==> i < |s.open| && s.open[i] == y
  {
    forall y | y in s.ups && s.ups[y] == Open(level)
      ensures i < |s.open| && s.open[i] == y
    {
      var j :| 0 <= j < |s.open| && s.open[j] == y;
      assert SlotOf(s, s.open[j]) == level;
    }
  }

  lemma FreshOk(s: State, level: nat, i: nat)
    requires Ok(s) && level < |s.stack| && i <= |s.open|
    requires forall j :: 0 <= j < i ==> SlotOf(s, s.open[j]) > level
    requires forall j :: i <= j < |s.open| ==> SlotOf(s, s.open[j]) < level
    ensures Ok(State(s.stack, s.open[..i] + [s.next] + s.open[i..], s.ups[s.next := Open(level)], s.next + 1))
  {
    var l' := s.open[..i] + [s.next] + s.open[i..];
    var s' := State(s.stack, l', s.ups[s.next := Open(level)], s.next + 1);
    FreshAt(s, level, i);
    hide ListOk, Descending, AllListed;
    assert ListOk(s') by { FreshListed(s, level, i); }
    assert Descending(s') by { FreshDescends(s, level, i); }
    assert AllListed(s') by { FreshAll(s, level, i); }
  }

  function Fresh(s: State, level: nat, i: nat): State
    requires i <= |s.open|
  {
    State(s.stack, s.open[..i] + [s.next] + s.open[i..], s.ups[s.next := Open(level)], s.next + 1)
  }

  lemma FreshAt(s: State, level: nat, i: nat)
    requires ListOk(s) && i <= |s.open| && s.next !in s.ups
    ensures var s' := Fresh(s, level, i);
            forall j :: 0 <= j < |s'.open| ==>
              && s'.open[j] == (if j < i then s.open[j] else if j == i then s.next else s.open[j - 1])
              && SlotOf(s', s'.open[j]) ==
                  (if j < i then SlotOf(s, s.open[j]) else if j == i then level else SlotOf(s, s.open[j - 1]))
  {
    var s' := Fresh(s, level, i);
    forall j | 0 <= j < |s'.open|
      ensures s'.open[j] == (if j < i then s.open[j] else if j == i then s.next else s.open[j - 1])
      ensures SlotOf(s', s'.open[j]) ==
          (if j < i then SlotOf(s, s.open[j]) else if j == i then level else SlotOf(s, s.open[j - 1]))
    {
      if j < i { assert s.open[j] in s.ups; }
      if j > i { assert s.open[j - 1] in s.ups; }
    }
  }

  lemma FreshListed(s: State, level: nat, i: nat)
    requires ListOk(s) && i <= |s.open| && s.next !in s.ups && level < |s.stack|
    ensures ListOk(Fresh(s, level, i))
  {
    FreshAt(s, level, i);
  }

  lemma FreshDescends(s: State, level: nat, i: nat)
    requires ListOk(s) && Descending(s) && i <= |s.open| && s.next !in s.ups
    requires forall j :: 0 <= j < i ==> SlotOf(s, s.open[j]) > level
    requires forall j :: i <= j < |s.open| ==> SlotOf(s, s.open[j]) < level
    ensures Descending(Fresh(s, level, i))
  {
    FreshAt(s, level, i);
    var s' := Fresh(s, level, i);
    forall j, k | 0 <= j < k < |s'.open|
      ensures SlotOf(s', s'.open[j]) > SlotOf(s', s'.open[k])
    {
    }
  }

  lemma FreshAll(s: State, level: nat, i: nat)
    requires AllListed(s) && i <= |s.open|
    ensures AllListed(Fresh(s, level, i))
  {
    var s' := Fresh(s, level, i);
    assert s.open == s.open[..i] + s.open[i..];
    forall x | x in s'.ups && s'.ups[x].Open?
      ensures x in s'.open
    {
      if x != s.next { assert x in s.open; }
    }
  }

  lemma CloseFirstOk(s: State)
    requires Ok(s) && s.open != []
    ensures Ok(CloseFirst(s))
    ensures forall x :: x in s.ups ==> x in CloseFirst(s).ups && Read(CloseFirst(s), x) == Read(s, x)
    ensures forall x :: x in s.ups && x != s.open[0] ==> CloseFirst(s).ups[x] == s.ups[x]
  {
    TailAt(s);
    HeadOpen(s);
    hide ListOk, Descending, AllListed;
    ClosedList(s);
    ClosedAll(s);
  }

  lemma TailAt(s: State)
    requires Ok(s) && s.open != []
    ensures var s' := CloseFirst(s);
            forall i :: 0 <= i < |s'.open| ==>
              s'.open[i] == s.open[i + 1] && s'.open[i] != s.open[0] &&
                  SlotOf(s', s'.open[i]) == SlotOf(s, s.open[i + 1])
  {
    var s' := CloseFirst(s);
    forall i | 0 <= i < |s'.open|
      ensures s'.open[i] == s.open[i + 1] && s'.open[i] != s.open[0]
    {
      assert SlotOf(s, s.open[0]) > SlotOf(s, s.open[i + 1]);
    }
  }

  lemma ClosedList(s: State)
    requires Ok(s) && s.open != []
    ensures ListOk(CloseFirst(s)) && Descending(CloseFirst(s))
  {
    TailAt(s);
    assert ListOk(s) && Descending(s);
  }

  lemma ClosedAll(s: State)
    requires Ok(s) && s.open != []
    ensures AllListed(CloseFirst(s))
  {
    assert s.open == [s.open[0]] + s.open[1..];
    var s' := CloseFirst(s);
    forall x | x in s'.ups && s'.ups[x].Open?
      ensures x in s'.open
    {
      assert x in s.open by { assert AllListed(s); }
    }
  }

  /** Closing leaves no open upvalue at `level` or above, and no upvalue changes its value. */
  lemma {:induction false} CloseOk(s: State, level: nat)
    requires Ok(s)
    ensures var s' := Close(s, level);
            && Ok(s') && s'.stack == s.stack && s'.ups.Keys == s.ups.Keys && s'.next == s.next
            && (forall x :: x in s.ups ==> Read(s', x) == Read(s, x))
            && (forall x :: x in s.ups ==> s'.ups[x].Open? == (s.ups[x].Open? && s.ups[x].slot < level))
            && (forall x :: x in s.ups && s'.ups[x].Open? ==> s'.ups[x] == s.ups[x])
    decreases |s.open|
  {
    if s.open == [] || SlotOf(s, s.open[0]) < level {
      AllBelow(s, level);
    } else {
      HeadOpen(s);
      CloseFirstOk(s);
      var s1 := CloseFirst(s);
      assert s1.ups[s.open[0]].Closed? && s1.stack == s.stack && s1.next == s.next && s1.ups.Keys == s.ups.Keys;
      hide Ok, Read, CloseFirst, Close;
      CloseStep(s, level);
      CloseOk(s1, level);
      ClosedMore(s, s1, Close(s1, level), s.open[0], level);
    }
  }

  lemma ClosedMore(s: State, s1: State, s': State, x0: UpId, level: nat)
    requires x0 in s.ups && s.ups[x0].Open? && s.ups[x0].slot >= level && s1.ups.Keys == s.ups.Keys == s'.ups.Keys
    requires s1.ups[x0].Closed? && forall x :: x in s.ups && x != x0 ==> s1.ups[x] == s.ups[x]
    requires forall x :: x in s1.ups ==> s'.ups[x].Open? == (s1.ups[x].Open? && s1.ups[x].slot < level)
    requires forall x :: x in s1.ups && s'.ups[x].Open? ==> s'.ups[x] == s1.ups[x]
    ensures forall x :: x in s.ups ==> s'.ups[x].Open? == (s.ups[x].Open? && s.ups[x].slot < level)
    ensures forall x :: x in s.ups && s'.ups[x].Open? ==> s'.ups[x] == s.ups[x]
  {
  }

  lemma CloseStep(s: State, level: nat)
    requires s.open != [] && SlotOf(s, s.open[0]) >= level
    ensures Close(s, level) == Close(CloseFirst(s), level)
  {
  }

  lemma HeadOpen(s: State)
    requires Ok(s) && s.open != []
    ensures s.open[0] in s.ups && s.ups[s.open[0]].Open? && SlotOf(s, s.open[0]) == s.ups[s.open[0]].slot
  {
    assert ListOk(s);
  }

  lemma AllBelow(s: State, level: nat)
    requires Ok(s) && (s.open == [] || SlotOf(s, s.open[0]) < level)
    ensures forall x :: x in s.ups && s.ups[x].Open? ==> s.ups[x].slot < level
  {
    forall x | x in s.ups && s.ups[x].Open?
      ensures s.ups[x].slot < level
    {
      var i :| 0 <= i < |s.open| && s.open[i] == x;
      if i > 0 { assert SlotOf(s, s.open[0]) > SlotOf(s, s.open[i]); }
    }
  }

  // ----- what sharing means -----

  /** The reference semantics: a captured variable is a cell, for as long as anything refers to it. A slot
      holds a value or the cell of the variable that lives there. */
  datatype Place = Plain(v: Value) | Cell(x: UpId)

  datatype Cells = Cells(slots: seq<Place>, cells: map<UpId, Value>, next: UpId)

  function SlotValue(c: Cells, i: nat): Value
    requires i < |c.slots|
  {
    match c.slots[i]
    case Plain(v) => v
    case Cell(x) => if x in c.cells then c.cells[x] else Num(0)
  }

  function Capture(c: Cells, i: nat): (Cells, UpId)
    requires i < |c.slots|
  {
    match c.slots[i]
    case Cell(x) => (c, x)
    case Plain(v) => (Cells(c.slots[i := Cell(c.next)], c.cells[c.next := v], c.next + 1), c.next)
  }

  function SetSlot(c: Cells, i: nat, v: Value): Cells
    requires i < |c.slots|
  {
    match c.slots[i]
    case Plain(_) => c.(slots := c.slots[i := Plain(v)])
    case Cell(x) => c.(cells := c.cells[x := v])
  }

  function SetCell(c: Cells, x: UpId, v: Value): Cells {
    if x in c.cells then c.(cells := c.cells[x := v]) else c
  }

  /** The variables from `level` on die; their cells live on. */
  function Leave(c: Cells, level: nat): Cells {
    c.(slots := seq(|c.slots|, i requires 0 <= i < |c.slots| =>
        if i < level then c.slots[i] else Plain(SlotValue(c, i))))
  }

  datatype Op =
    | OCapture(slot: nat)
    | OWriteSlot(slot: nat, v: Value)
    | OWrite(x: UpId, v: Value)
    | OClose(level: nat)

  function Step(s: State, op: Op): State {
    match op
    case OCapture(i) => if i < |s.stack| then Find(s, i).0 else s
    case OWriteSlot(i, v) => if i < |s.stack| then WriteSlot(s, i, v) else s
    case OWrite(x, v) => Write(s, x, v)
    case OClose(level) => Close(s, level)
  }

  function CellStep(c: Cells, op: Op): Cells {
    match op
    case OCapture(i) => if i < |c.slots| then Capture(c, i).0 else c
    case OWriteSlot(i, v) => if i < |c.slots| then SetSlot(c, i, v) else c
    case OWrite(x, v) => SetCell(c, x, v)
    case OClose(level) => Leave(c, level)
  }

  /** The run-time structures stand for the cells. */
  ghost predicate Stands(s: State, c: Cells) {
    && Ok(s) && |s.stack| == |c.slots| && s.next == c.next && s.ups.Keys == c.cells.Keys
    && (forall i :: 0 <= i < |s.stack| ==> s.stack[i] == SlotValue(c, i))
    && (forall x :: x in s.ups ==> Read(s, x) == c.cells[x])
    && (forall x :: x in s.ups && s.ups[x].Open? ==> s.ups[x].slot < |c.slots| && c.slots[s.ups[x].slot] == Cell(x))
    && (forall i :: 0 <= i < |c.slots| && c.slots[i].Cell? ==> c.slots[i].x in s.ups && s.ups[c.slots[i].x] == Open(i))
  }

  lemma CaptureStands(s: State, c: Cells, i: nat)
    requires Stands(s, c) && i < |s.stack|
    ensures Stands(Find(s, i).0, Capture(c, i).0) && Find(s, i).1 == Capture(c, i).1
  {
    FindOk(s, i);
    var (s', x) := Find(s, i);
    hide Ok, Find;
    if c.slots[i].Cell? {
      assert s.ups[c.slots[i].x] == Open(i) && x == c.slots[i].x;
      SameAfter(s, i, x);
    } else {
      NextNew(s);
      NotYet(s, c, i, x);
      CaptureNew(s, c, i, s');
    }
  }

  lemma NextNew(s: State)
    requires Ok(s)
    ensures s.next !in s.ups
  {
  }

  lemma SameAfter(s: State, i: nat, x: UpId)
    requires Ok(s) && x in s.ups && s.ups[x] == Open(i)
    ensures Find(s, i) == (s, x)
  {
    FoundAlready(s, i, x);
  }

  lemma NotYet(s: State, c: Cells, i: nat, x: UpId)
    requires Stands(s, c) && i < |s.stack| && !c.slots[i].Cell?
    ensures forall y :: y in s.ups ==> s.ups[y] != Open(i)
    ensures Find(s, i).1 == s.next && Find(s, i).0.next == s.next + 1 && Find(s, i).0.ups == s.ups[s.next := Open(i)]
  {
    forall y | y in s.ups
      ensures s.ups[y] != Open(i)
    {
      if s.ups[y].Open? { assert c.slots[s.ups[y].slot] == Cell(y); }
    }
    var p := Position(s, s.open, i);
    assert p < |s.open| ==> s.ups[s.open[p]] != Open(i) by { assert ListOk(s); }
  }

  lemma CaptureNew(s: State, c: Cells, i: nat, s': State)
    requires Stands(s, c) && i < |s.stack| && c.slots[i].Plain? && Ok(s')
    requires s'.stack == s.stack && s'.next == s.next + 1 && s'.ups == s.ups[s.next := Open(i)] && s.next !in s.ups
    ensures Stands(s', Capture(c, i).0)
  {
    hide Ok;
    var c' := Capture(c, i).0;
    forall j | 0 <= j < |s'.stack|
      ensures s'.stack[j] == SlotValue(c', j)
      ensures c'.slots[j].Cell? ==> c'.slots[j].x in s'.ups && s'.ups[c'.slots[j].x] == Open(j)
    {
      assert s.stack[j] == SlotValue(c, j);
    }
  }

  lemma WriteStands(s: State, c: Cells, x: UpId, v: Value)
    requires Stands(s, c)
    ensures Stands(Write(s, x, v), SetCell(c, x, v))
  {
    if x in s.ups && s.ups[x].Open? {
      SlotStands(s, c, s.ups[x].slot, v);
    } else if x in s.ups {
      ClosedOk(s, x, v);
      hide Ok;
      forall i | 0 <= i < |s.stack|
        ensures c.slots[i] != Cell(x)
      {
      }
    }
  }

  lemma ClosedOk(s: State, x: UpId, v: Value)
    requires Ok(s) && x in s.ups && s.ups[x].Closed?
    ensures Ok(Write(s, x, v))
  {
    var s' := Write(s, x, v);
    forall i | 0 <= i < |s.open|
      ensures s.open[i] != x && SlotOf(s', s.open[i]) == SlotOf(s, s.open[i])
    {
    }
  }

  lemma SlotStands(s: State, c: Cells, i: nat, v: Value)
    requires Stands(s, c) && i < |s.stack|
    ensures Stands(WriteSlot(s, i, v), SetSlot(c, i, v))
  {
    var s', c' := WriteSlot(s, i, v), SetSlot(c, i, v);
    forall x | x in s'.ups
      ensures Read(s', x) == c'.cells[x]
    {
      if s.ups[x].Open? && s.ups[x].slot == i { assert c.slots[i] == Cell(x); }
    }
    forall j | 0 <= j < |s'.stack|
      ensures s'.stack[j] == SlotValue(c', j)
    {
      assert c.slots[i].Cell? ==> s.ups[c.slots[i].x] == Open(i);
      assert c.slots[j].Cell? ==> s.ups[c.slots[j].x] == Open(j);
    }
  }

  lemma CloseStands(s: State, c: Cells, level: nat)
    requires Stands(s, c)
    ensures Stands(Close(s, level), Leave(c, level))
  {
    CloseOk(s, level);
    var s', c' := Close(s, level), Leave(c, level);
    forall i | 0 <= i < |c'.slots|
      ensures s'.stack[i] == SlotValue(c', i)
      ensures c'.slots[i].Cell? ==> c'.slots[i].x in s'.ups && s'.ups[c'.slots[i].x] == Open(i)
    {
      assert s.stack[i] == SlotValue(c, i);
    }
  }

  lemma StepStands(s: State, c: Cells, op: Op)
    requires Stands(s, c)
    ensures Stands(Step(s, op), CellStep(c, op))
  {
    match op
    case OCapture(i) => if i < |s.stack| { CaptureStands(s, c, i); }
    case OWriteSlot(i, v) => if i < |s.stack| { SlotStands(s, c, i, v); }
    case OWrite(x, v) => WriteStands(s, c, x, v);
    case OClose(level) => CloseStands(s, c, level);
  }

  function Run(s: State, ops: seq<Op>): State
    decreases |ops|
  {
    if ops == [] then s else Run(Step(s, ops[0]), ops[1..])
  }

  function CellRun(c: Cells, ops: seq<Op>): Cells
    decreases |ops|
  {
    if ops == [] then c else CellRun(CellStep(c, ops[0]), ops[1..])
  }

  /** For any interleaving of captures, stack writes, writes through upvalues and closes: every slot and every
      upvalue reads as its variable does when captured variables are shared cells. */
  lemma {:induction false} RunShares(s: State, c: Cells, ops: seq<Op>)
    requires Stands(s, c)
    ensures Stands(Run(s, ops), CellRun(c, ops))
    decreases |ops|
  {
    if ops != [] {
      StepStands(s, c, ops[0]);
      RunShares(Step(s, ops[0]), CellStep(c, ops[0]), ops[1..]);
    }
  }

  /** Before anything is captured. */
  lemma NewThreadStands(stack: seq<Value>)
    ensures Stands(State(stack, [], map[], 0),
        Cells(seq(|stack|, i requires 0 <= i < |stack| => Plain(stack[i])), map[], 0))
  {
  }

  // ----- closures -----

  /** `Upvaldesc` at run time */
  datatype Desc = Desc(instack: bool, idx: nat)

  /** `pushclosure`: the upvalues of a new closure. */
  function Push(s: State, descs: seq<Desc>, encup: seq<UpId>, base: nat): (State, seq<UpId>)
    decreases |descs|
  {
    if descs == [] then (s, [])
    else
      var (s1, ups) := Push(s, descs[..|descs| - 1], encup, base);
      var d := descs[|descs| - 1];
      if d.instack then
        var (s2, x) := Find(s1, base + d.idx);
        (s2, ups + [x])
      else (s1, ups + [if d.idx < |encup| then encup[d.idx] else 0])
  }

  predicate DescsOk(s: State, descs: seq<Desc>, encup: seq<UpId>, base: nat) {
    forall i :: 0 <= i < |descs| ==>
        if descs[i].instack then base + descs[i].idx < |s.stack| else descs[i].idx < |encup|
  }

  /** Each upvalue is the one that its descriptor names: the variable in the slot, or the enclosing
      function's upvalue. */
  lemma {:induction false} PushOk(s: State, descs: seq<Desc>, encup: seq<UpId>, base: nat)
    requires Ok(s) && DescsOk(s, descs, encup, base)
    ensures var (s', ups) := Push(s, descs, encup, base);
            && Ok(s') && |ups| == |descs| && s'.stack == s.stack
            && (forall y :: y in s.ups ==> y in s'.ups && s'.ups[y] == s.ups[y])
            && (forall i :: 0 <= i < |descs| ==>
                  if descs[i].instack then ups[i] in s'.ups && s'.ups[ups[i]] == Open(base + descs[i].idx)
                  else ups[i] == encup[descs[i].idx])
    decreases |descs|
  {
    hide Ok, Find;
    if descs != [] {
      var n := |descs| - 1;
      PrefixOk(s, descs, encup, base);
      PushOk(s, descs[..n], encup, base);
      var (s1, ups) := Push(s, descs[..n], encup, base);
      var (s', ups') := Push(s, descs, encup, base);
      if descs[n].instack { FindOk(s1, base + descs[n].idx); }
      forall i | 0 <= i < |descs|
        ensures if descs[i].instack then ups'[i] in s'.ups && s'.ups[ups'[i]] == Open(base + descs[i].idx)
                else ups'[i] == encup[descs[i].idx]
      {
        if i < n { assert descs[..n][i] == descs[i] && ups'[i] == ups[i]; }
      }
    }
  }

  lemma PrefixOk(s: State, descs: seq<Desc>, encup: seq<UpId>, base: nat)
    requires DescsOk(s, descs, encup, base) && descs != []
    ensures DescsOk(s, descs[..|descs| - 1], encup, base)
    ensures var d := descs[|descs| - 1]; if d.instack then base + d.idx < |s.stack| else d.idx < |encup|
  {
  }

  /** Where an upvalue's value is: what `uv->v` points to. */
  datatype Location = Slot(i: nat) | Own(x: UpId)

  function LocationOf(s: State, x: UpId): Location {
    if x in s.ups && s.ups[x].Open? then Slot(s.ups[x].slot) else Own(x)
  }

  function Wanted(s: State, d: Desc, encup: seq<UpId>, base: nat): Location {
    if d.instack then Slot(base + d.idx) else LocationOf(s, if d.idx < |encup| then encup[d.idx] else 0)
  }

  /** `getcached`: the cached closure has the right upvalues. */
  predicate Reusable(s: State, cached: seq<UpId>, descs: seq<Desc>, encup: seq<UpId>, base: nat) {
    |cached| == |descs| && forall i :: 0 <= i < |descs| ==> LocationOf(s, cached[i]) == Wanted(s, descs[i], encup, base)
  }

  lemma SameLocation(s: State, x: UpId, y: UpId)
    requires Ok(s) && x in s.ups && y in s.ups && LocationOf(s, x) == LocationOf(s, y)
    ensures x == y
  {
    if s.ups[x].Open? {
      var i :| 0 <= i < |s.open| && s.open[i] == x;
      var j :| 0 <= j < |s.open| && s.open[j] == y;
      assert SlotOf(s, s.open[i]) == SlotOf(s, s.open[j]);
    }
  }

  /** A closure from the cache has exactly the upvalues that a new one would have, and making the new one
      would not have created any. */
  lemma {:induction false} CachedSame(s: State, cached: seq<UpId>, descs: seq<Desc>, encup: seq<UpId>, base: nat)
    requires Ok(s) && DescsOk(s, descs, encup, base) && Reusable(s, cached, descs, encup, base)
    requires (forall i :: 0 <= i < |cached| ==> cached[i] in s.ups)
    requires forall i :: 0 <= i < |encup| ==> encup[i] in s.ups
    ensures Push(s, descs, encup, base) == (s, cached)
    decreases |descs|
  {
    hide Ok, Find;
    if descs != [] {
      var n := |descs| - 1;
      PrefixOk(s, descs, encup, base);
      assert forall i :: 0 <= i < n ==> descs[..n][i] == descs[i] && cached[..n][i] == cached[i];
      CachedSame(s, cached[..n], descs[..n], encup, base);
      var x := cached[n];
      assert LocationOf(s, x) == Wanted(s, descs[n], encup, base);
      if descs[n].instack {
        FoundAlready(s, base + descs[n].idx, x);
      } else {
        SameLocation(s, x, encup[descs[n].idx]);
      }
      assert cached == cached[..n] + [x];
    }
  }

  lemma FoundAlready(s: State, level: nat, x: UpId)
    requires Ok(s) && x in s.ups && s.ups[x] == Open(level)
    ensures Find(s, level) == (s, x)
  {
    PositionSplits(s, s.open, level);
    var j :| 0 <= j < |s.open| && s.open[j] == x;
    assert SlotOf(s, s.open[j]) == level;
  }
}

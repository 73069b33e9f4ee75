/** Jump lists threaded through the offsets of pending jumps. */
module JumpLists {
  import opened Bytecode
  import opened CodeGen
  import opened PartialCode
  import opened Emission

  /** Marks the end of a list: neither a position nor a link, as it would link a jump to itself. */
  const NO_JUMP: int := -1

  /** `getjump`: the next element of the list, from the offset of a pending jump. */
  function Link(code: seq<Instr>, pc: nat): int
    requires pc < |code| && code[pc].Jmp?
  {
    if code[pc].sbx == NO_JUMP then NO_JUMP else pc + 1 + code[pc].sbx
  }

  /** From `head`, the links visit exactly the elements of `list`. */
  predicate Threaded(code: seq<Instr>, head: int, list: seq<nat>)
    decreases |list|
  {
    if list == [] then head == NO_JUMP
    else head == list[0] && list[0] < |code| && code[list[0]].Jmp? && Threaded(code, Link(code, list[0]), list[1..])
  }

  /** The code with its pending jumps linked instead of left open. */
  predicate Refines(code: seq<Instr>, open: seq<Instr>) {
    && |code| == |open|
    && forall i :: 0 <= i < |code| ==> if open[i].Hole? then code[i].Jmp? else code[i] == open[i]
  }

  predicate SameAt(code: seq<Instr>, code': seq<Instr>, s: set<nat>) {
    forall p :: p in s ==> p < |code| && p < |code'| && code'[p] == code[p]
  }

  lemma {:induction false} ThreadedFrame(code: seq<Instr>, code': seq<Instr>, head: int, list: seq<nat>)
    requires Threaded(code, head, list) && SameAt(code, code', Elems(list))
    ensures Threaded(code', head, list)
    decreases |list|
  {
    if list != [] {
      assert list[0] in Elems(list);
      assert forall p :: p in Elems(list[1..]) ==> p in Elems(list);
      ThreadedFrame(code, code', Link(code, list[0]), list[1..]);
    }
  }

  /** Lists are finite: following the links from any element reaches the end. */
  lemma {:induction false} ThreadedSuffix(code: seq<Instr>, head: int, list: seq<nat>, i: nat)
    requires Threaded(code, head, list) && i < |list|
    ensures list[i] < |code| && code[list[i]].Jmp?
    ensures Threaded(code, list[i], list[i..])
    ensures Link(code, list[i]) == if i + 1 < |list| then list[i + 1] else NO_JUMP
    decreases i
  {
    if i > 0 {
      ThreadedSuffix(code, Link(code, list[0]), list[1..], i - 1);
      assert list[1..][i - 1..] == list[i..];
    } else {
      assert list[0..] == list;
    }
  }

  /** Linking the last element of one list to the head of another joins them. */
  lemma {:induction false} ThreadedJoin(code: seq<Instr>, h1: int, l1: seq<nat>, h2: int, l2: seq<nat>)
    requires Threaded(code, h1, l1) && Threaded(code, h2, l2) && l1 != [] && l2 != []
    requires NoDup(l1) && Elems(l1) !! Elems(l2)
    ensures var last := l1[|l1| - 1];
            && last < |code|
            && Threaded(code[last := Jmp(h2 - (last + 1))], h1, l1 + l2)
    decreases |l1|
  {
    ThreadedSuffix(code, h1, l1, |l1| - 1);
    var last := l1[|l1| - 1];
    var code' := code[last := Jmp(h2 - (last + 1))];
    assert last in Elems(l1);
    assert l2[0] in Elems(l2);
    forall p | p in Elems(l2)
      ensures p < |code| && code'[p] == code[p]
    {
      var i :| 0 <= i < |l2| && l2[i] == p;
      ThreadedSuffix(code, h2, l2, i);
    }
    if |l1| == 1 {
      ThreadedFrame(code, code', h2, l2);
      assert (l1 + l2)[1..] == l2;
      assert h1 == last;
    } else {
      assert forall p :: p in Elems(l1[1..]) ==> p in Elems(l1);
      ThreadedJoin(code, Link(code, l1[0]), l1[1..], h2, l2);
      assert (l1 + l2)[1..] == l1[1..] + l2;
    }
  }

  lemma {:induction false} ThreadedHead(code: seq<Instr>, head: int, list: seq<nat>)
    requires Threaded(code, head, list)
    ensures head == NO_JUMP <==> list == []
    ensures list != [] ==> head == list[0] && 0 <= head < |code| && code[head].Jmp?
  {
  }

  // ----- the same patches on linked and on open code -----

  lemma RefinesValueJump(code: seq<Instr>, open: seq<Instr>, p: nat)
    requires Refines(code, open) && p < |code| && open[p].Hole?
    ensures IsValueJump(code, p) == IsValueJump(open, p)
    ensures IsValueJump(code, p) ==>
        p >= 1 && Control(code, p) == p - 1 && Control(open, p) == p - 1 && code[p - 1] == open[p - 1]
  {
    if p >= 1 { assert open[p - 1].Hole? || code[p - 1] == open[p - 1]; }
  }

  predicate AllHoles(open: seq<Instr>, list: seq<nat>) {
    forall p :: p in list ==> p < |open| && open[p].Hole?
  }

  lemma {:induction false} RefinesNeedValue(code: seq<Instr>, open: seq<Instr>, list: seq<nat>)
    requires Refines(code, open) && AllHoles(open, list)
    ensures NeedValue(code, list) == NeedValue(open, list)
    decreases |list|
  {
    if list != [] {
      assert list[0] in list && forall p :: p in list[1..] ==> p in list;
      RefinesValueJump(code, open, list[0]);
      RefinesNeedValue(code, open, list[1..]);
    }
  }

  lemma RefinesPatchTest(code: seq<Instr>, open: seq<Instr>, p: nat, reg: int)
    requires Refines(code, open) && p < |code| && open[p].Hole?
    ensures Refines(PatchTestReg(code, p, reg), PatchTestReg(open, p, reg))
    ensures forall q: nat :: q < |open| && open[q].Hole? ==>
        PatchTestReg(open, p, reg)[q].Hole? && PatchTestReg(code, p, reg)[q] == code[q]
  {
    RefinesValueJump(code, open, p);
  }

  lemma {:induction false} RefinesRemove(code: seq<Instr>, open: seq<Instr>, list: seq<nat>)
    requires Refines(code, open) && AllHoles(open, list)
    ensures Refines(RemoveValues(code, list), RemoveValues(open, list))
    ensures forall q: nat :: q < |open| && open[q].Hole? ==>
        RemoveValues(code, list)[q] == code[q] && RemoveValues(open, list)[q].Hole?
    decreases |list|
  {
    if list != [] {
      assert list[0] in list && forall p :: p in list[1..] ==> p in list;
      RefinesPatchTest(code, open, list[0], NO_REG);
      RefinesRemove(PatchTestReg(code, list[0], NO_REG), PatchTestReg(open, list[0], NO_REG), list[1..]);
    }
  }

  lemma RefinesPatchOne(code: seq<Instr>, open: seq<Instr>, p: nat, v: int, reg: int, d: int)
    requires Refines(code, open) && p < |code| && open[p].Hole?
    ensures Refines(PatchOne(code, p, v, reg, d), PatchOne(open, p, v, reg, d))
    ensures forall q: nat :: q < |open| && open[q].Hole? && q != p ==>
        PatchOne(code, p, v, reg, d)[q] == code[q] && PatchOne(open, p, v, reg, d)[q].Hole?
  {
    RefinesValueJump(code, open, p);
    RefinesPatchTest(code, open, p, reg);
  }

  lemma {:induction false} RefinesPatchList(code: seq<Instr>, open: seq<Instr>, list: seq<nat>, v: int, reg: int,
                                            d: int)
    requires Refines(code, open) && AllHoles(open, list) && NoDup(list)
    ensures Refines(PatchListAux(code, list, v, reg, d), PatchListAux(open, list, v, reg, d))
    ensures forall q: nat :: q < |open| && open[q].Hole? && q !in list ==>
              PatchListAux(code, list, v, reg, d)[q] == code[q] && PatchListAux(open, list, v, reg, d)[q].Hole?
    decreases |list|
  {
    if list != [] {
      var p := list[0];
      assert list == [p] + list[1..] && p in list;
      RefinesPatchOne(code, open, p, v, reg, d);
      var code1, open1 := PatchOne(code, p, v, reg, d), PatchOne(open, p, v, reg, d);
      forall q | q in list[1..]
        ensures q < |open1| && open1[q].Hole?
      {
        var i :| 0 <= i < |list[1..]| && list[1..][i] == q;
        assert list[i + 1] == q && q in list && q != p;
      }
      RefinesPatchList(code1, open1, list[1..], v, reg, d);
    }
  }
}

/** The functions of a running thread that keep the list of open upvalues and make closures. */
module Closures {
  import opened Basics
  import opened Upvalues

  // ----- the functions of `lfunc.c` and `lvm.c` -----

  class Thread {
    var stack: seq<Value>
    var open: seq<UpId>
    var ups: map<UpId, UpVal>
    var next: UpId

    ghost function S(): State
      reads this
    {
      State(stack, open, ups, next)
    }

    function Slot(x: UpId): (i: int)
      reads this
      ensures i == SlotOf(S(), x)
    {
      if x in ups && ups[x].Open? then ups[x].slot else -1
    }

    /** `luaF_findupval` */
    method FindUpval(level: nat) returns (x: UpId)
      modifies this
      ensures (S(), x) == Find(old(S()), level)
    {
      var i := 0;
      assert open[0..] == open;
      while i < |open| && Slot(open[i]) > level
        invariant 0 <= i <= |open| && Position(S(), open, level) == i + Position(S(), open[i..], level)
        invariant S() == old(S())
      {
        assert open[i..][1..] == open[i + 1..];
        i := i + 1;
      }
      if i < |open| && Slot(open[i]) == level { return open[i]; }
      x := next;
      open := open[..i] + [x] + open[i..];
      ups := ups[x := Open(level)];
      next := next + 1;
    }

    /** `luaF_close` */
    method Close(level: nat)
      modifies this
      ensures S() == Upvalues.Close(old(S()), level)
    {
      while open != [] && Slot(open[0]) >= level
        invariant Upvalues.Close(S(), level) == Upvalues.Close(old(S()), level)
        decreases |open|
      {
        var x := open[0];
        var v := Value(x);
        open := open[1..];
        ups := ups[x := Closed(v)];
      }
    }

    function Value(x: UpId): (v: Upvalues.Value)
      reads this
      ensures v == Read(S(), x)
    {
      if x !in ups then Num(0)
      else match ups[x]
        case Open(i) => if i < |stack| then stack[i] else Num(0)
        case Closed(v) => v
    }

    method SetUpval(x: UpId, v: Upvalues.Value)
      modifies this
      ensures S() == Write(old(S()), x, v)
    {
      if x in ups {
        match ups[x] {
          case Open(i) => if i < |stack| { stack := stack[i := v]; }
          case Closed(_) => ups := ups[x := Closed(v)];
        }
      }
    }

    /** `pushclosure` */
    method PushClosure(descs: seq<Desc>, encup: seq<UpId>, base: nat) returns (upvals: seq<UpId>)
      modifies this
      ensures (S(), upvals) == Push(old(S()), descs, encup, base)
    {
      upvals := [];
      var i := 0;
      while i < |descs|
        invariant 0 <= i <= |descs| && (S(), upvals) == Push(old(S()), descs[..i], encup, base)
      {
        assert descs[..i + 1][..i] == descs[..i];
        var d := descs[i];
        if d.instack {
          var x := FindUpval(base + d.idx);
          upvals := upvals + [x];
        } else {
          upvals := upvals + [if d.idx < |encup| then encup[d.idx] else 0];
        }
        i := i + 1;
      }
      assert descs[..|descs|] == descs;
    }

    /** `getcached` */
    method GetCached(cached: seq<UpId>, descs: seq<Desc>, encup: seq<UpId>, base: nat) returns (reuse: bool)
      requires |cached| == |descs|
      ensures reuse == Reusable(S(), cached, descs, encup, base)
    {
      var i := 0;
      while i < |descs|
        invariant 0 <= i <= |descs|
        invariant forall j :: 0 <= j < i ==> LocationOf(S(), cached[j]) == Wanted(S(), descs[j], encup, base)
      {
        var d := descs[i];
        var want := if d.instack then Location.Slot(base + d.idx)
            else Where(if d.idx < |encup| then encup[d.idx] else 0);
        if Where(cached[i]) != want { return false; }
        i := i + 1;
      }
      return true;
    }

    function Where(x: UpId): (l: Location)
      reads this
      ensures l == LocationOf(S(), x)
    {
      if x in ups && ups[x].Open? then Location.Slot(ups[x].slot) else Own(x)
    }

    /** `OP_CLOSURE`: with or without a closure in the cache of the prototype, the result has the upvalues that a new
        closure would have, and the thread is as if one had been made. */
    method OpClosure(cache: Option<seq<UpId>>, descs: seq<Desc>, encup: seq<UpId>, base: nat)
      returns (upvals: seq<UpId>)
      requires Ok(S()) && DescsOk(S(), descs, encup, base) && forall i :: 0 <= i < |encup| ==> encup[i] in ups
      requires cache.Some? ==> |cache.value| == |descs| && forall i :: 0 <= i < |cache.value| ==> cache.value[i] in ups
      modifies this
      ensures (S(), upvals) == Push(old(S()), descs, encup, base)
    {
      if cache.Some? {
        var reuse := GetCached(cache.value, descs, encup, base);
        if reuse {
          CachedSame(S(), cache.value, descs, encup, base);
          return cache.value;
        }
      }
      upvals := PushClosure(descs, encup, base);
    }
  }
}

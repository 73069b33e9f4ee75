/** The machine that runs translated programs: registers on a stack, open and closed upvalues. */
module ScopedMachine {
  import opened Basics
  import S = Scoping
  import opened ScopedPrograms
  import opened ScopedCode
  import U = Upvalues

  datatype MResult = MResult(o: Outcome, s: U.State, out: seq<int>)

  function Descs(ups: seq<S.UpvalDesc>): (ds: seq<U.Desc>)
    ensures |ds| == |ups| && forall i :: 0 <= i < |ups| ==> ds[i] == U.Desc(ups[i].instack, ups[i].idx)
  {
    seq(|ups|, i requires 0 <= i < |ups| => U.Desc(ups[i].instack, ups[i].idx))
  }

  /** The value of an operand in an activation; a new closure may open upvalues. */
  function Fetch(s: U.State, base: nat, ups: seq<U.UpId>, o: Operand): (U.State, Option<U.Value>) {
    match o
    case KNum(n) => (s, Some(U.Num(n)))
    case Register(r) => (s, if base + r < |s.stack| then Some(s.stack[base + r]) else None)
    case Upvalue(u) => (s, if u < |ups| then Some(U.Read(s, ups[u])) else None)
    case NoVariable => (s, None)
    case NewClosure(p) =>
      var (s', ids) := U.Push(s, Descs(p.ups), ups, base);
      (s', Some(U.Fun(p, ids)))
  }

  /** The variables from `level` on die; their upvalues are closed if the code says so. */
  function Drop(s: U.State, level: nat, close: bool): U.State {
    var s1 := if close then U.Close(s, level) else s;
    s1.(stack := if level <= |s1.stack| then s1.stack[..level] else s1.stack)
  }

  function Push(s: U.State, v: U.Value): U.State {
    s.(stack := s.stack + [v])
  }

  function Execute(fuel: nat, s: U.State, out: seq<int>, base: nat, ups: seq<U.UpId>, i: Instr): MResult
    decreases fuel, i
  {
    match i
    case Declared(o) =>
      (match Fetch(s, base, ups, o)
       case (s1, None) => MResult(Failed, s1, out)
       case (s1, Some(v)) => MResult(Fine, Push(s1, v), out))
    case SetRegister(r, o) =>
      (match Fetch(s, base, ups, o)
       case (s1, None) => MResult(Failed, s1, out)
       case (s1, Some(v)) =>
         if base + r < |s1.stack| then MResult(Fine, U.WriteSlot(s1, base + r, v), out) else MResult(Failed, s1, out))
    case SetUpvalue(u, o) =>
      (match Fetch(s, base, ups, o)
       case (s1, None) => MResult(Failed, s1, out)
       case (s1, Some(v)) => if u < |ups| then MResult(Fine, U.Write(s1, ups[u], v), out) else MResult(Failed, s1, out))
    case SetNothing(o) => MResult(Failed, Fetch(s, base, ups, o).0, out)
    case DoBlock(code, close, level) =>
      var r := RunCode(fuel, s, out, base, ups, code);
      if r.o != Fine then r else r.(s := Drop(r.s, base + level, close))
    case Loop(cond, code, close, level) =>
      (match Fetch(s, base, ups, cond)
       case (s1, None) => MResult(Failed, s1, out)
       case (s1, Some(v)) =>
         if v == U.Num(0) then MResult(Fine, s1, out)
         else
           var r := RunCode(fuel, s1, out, base, ups, code);
           if r.o != Fine then r
           else if fuel == 0 then r.(o := Exhausted)
           else Execute(fuel - 1, Drop(r.s, base + level, close), r.out, base, ups, i))
    case CallFunction(f, arg) =>
      (match Fetch(s, base, ups, f)
       case (s1, None) => MResult(Failed, s1, out)
       case (s1, Some(vf)) =>
         match Fetch(s1, base, ups, arg)
         case (s2, None) => MResult(Failed, s2, out)
         case (s2, Some(v)) =>
           if !vf.Fun? then MResult(Failed, s2, out)
           else if fuel == 0 then MResult(Exhausted, s2, out)
           else
             var r := RunCode(fuel - 1, Push(s2, v), out, |s2.stack|, vf.ups, vf.p.code);
             if r.o != Fine then r else r.(s := Drop(r.s, |s2.stack|, HasFunctions(vf.p.code))))
    case Emit(o) =>
      (match Fetch(s, base, ups, o)
       case (s1, None) => MResult(Failed, s1, out)
       case (s1, Some(v)) => if v.Num? then MResult(Fine, s1, out + [v.n]) else MResult(Failed, s1, out))
  }

  function RunCode(fuel: nat, s: U.State, out: seq<int>, base: nat, ups: seq<U.UpId>, code: seq<Instr>): MResult
    decreases fuel, code
  {
    if code == [] then MResult(Fine, s, out)
    else
      var r := Execute(fuel, s, out, base, ups, code[0]);
      if r.o != Fine then r else RunCode(fuel, r.s, r.out, base, ups, code[1..])
  }
}

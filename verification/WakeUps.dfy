/** What a whole signal, broadcast or wait does, in any interleaving with the other threads. */
module WakeUps {
  import opened Basics
  import opened CondVar

  // ----- the steps of the caller -----

  /** A signal that looks while threads are registered releases one token for them, and otherwise it ends. */
  lemma SignalLooks(s: State, t: Tid)
    requires Inv(s) && t in s.pc && s.pc[t] == SLook
    ensures var s3 := Run(s, Own(t, 3));
      Registered(s) != {} ==> At(s3, t) == SWait && s3.sem == 1 && !s3.event && s3.targets == Registered(s)
    ensures var s4 := Run(s, Own(t, 4));
      Registered(s) == {} ==> At(s4, t) == Idle && s4.sem == 0 && !s4.event && s4.broadcastLock == None
  {
    hide Inv, Next, Registered, Run, Own, Waiting, IsCounted;
    AllWaiting(s, t);
    LooksQuiet(s, t);
    SignalStep(s, t);
    var s1 := Next(s, t).value;
    SignalStep(s1, t);
    var s2 := Next(s1, t).value;
    SignalStep(s2, t);
    var s3 := Next(s2, t).value;
    OwnSteps(s, s1, s2, s3, t);
    if Registered(s) == {} {
      SignalStep(s3, t);
      OwnStep(s, t, 4);
      OwnSteps(s1, s2, s3, Next(s3, t).value, t);
    }
  }

  predicate SignalSteps(s: State, t: Tid, s1: State)
    requires t in s.pc && t in s1.pc
  {
    match s.pc[t]
    case SLook =>
      s1.pc[t] == SUnlockCount(s.count > 0) && s1.sem == s.sem && s1.targets == Registered(s)
      && s1.broadcastLock == s.broadcastLock
    case SUnlockCount(have) =>
      s1.pc[t] == SRelease(have) && s1.sem == s.sem && s1.targets == s.targets && s1.broadcastLock == s.broadcastLock
    case SRelease(have) =>
      s1.pc[t] == (if have then SWait else SUnlockBroadcast) && s1.sem == s.sem + One(have)
      && s1.targets == s.targets && s1.broadcastLock == s.broadcastLock
    case SUnlockBroadcast => s1.pc[t] == Idle && s1.sem == s.sem && s1.broadcastLock == None
    case _ => true
  }

  lemma SignalStep(s: State, t: Tid)
    requires t in s.pc
    requires (s.pc[t] == SLook || s.pc[t].SUnlockCount? || s.pc[t].SRelease? || s.pc[t] == SUnlockBroadcast)
    ensures Next(s, t).Some?
    ensures var s1 := Next(s, t).value; t in s1.pc && s1.event == s.event && SignalSteps(s, t, s1)
  {
    hide Registered, NextBroadcast, NextEnter, NextWait;
  }

  /** A broadcast releases a token for each. */
  lemma BroadcastLooks(s: State, t: Tid)
    requires Inv(s) && t in s.pc && s.pc[t] == BLook
    ensures var s3 := Run(s, Own(t, 3));
      if Registered(s) != {} then
        At(s3, t) == BWait && s3.sem == |Registered(s)| && !s3.event && s3.targets == Registered(s)
      else At(s3, t) == Idle && s3.sem == 0 && !s3.event && s3.broadcastLock == None
  {
    hide Inv, Next, Registered, Run, Own, Waiting, IsCounted;
    AllWaiting(s, t);
    LooksQuiet(s, t);
    BroadcastStep(s, t);
    var s1 := Next(s, t).value;
    BroadcastStep(s1, t);
    var s2 := Next(s1, t).value;
    BroadcastStep(s2, t);
    OwnSteps(s, s1, s2, Next(s2, t).value, t);
  }

  predicate BroadcastSteps(s: State, t: Tid, s1: State)
    requires t in s.pc && t in s1.pc
  {
    match s.pc[t]
    case BLook =>
      s1.pc[t] == (if s.count > 0 then BRelease else BNobody) && s1.sem == s.sem && s1.targets == Registered(s)
      && s1.count == s.count && s1.broadcastLock == s.broadcastLock
    case BRelease =>
      s1.pc[t] == BUnlockCount && (s.count > 0 ==> s1.sem == s.sem + s.count) && s1.targets == s.targets
    case BUnlockCount => s1.pc[t] == BWait && s1.sem == s.sem && s1.targets == s.targets
    case BNobody =>
      s1.pc[t] == BUnlockBroadcast && s1.sem == s.sem && s1.broadcastLock == s.broadcastLock
    case BUnlockBroadcast => s1.pc[t] == Idle && s1.sem == s.sem && s1.broadcastLock == None
    case _ => true
  }

  lemma BroadcastStep(s: State, t: Tid)
    requires t in s.pc
    requires s.pc[t] == BLook || s.pc[t] == BRelease || s.pc[t] == BUnlockCount || s.pc[t] == BNobody ||
        s.pc[t] == BUnlockBroadcast
    ensures Next(s, t).Some?
    ensures var s1 := Next(s, t).value; t in s1.pc && s1.event == s.event && BroadcastSteps(s, t, s1)
  {
    hide Registered, NextSignal, NextEnter, NextWait;
  }

  lemma LooksQuiet(s: State, t: Tid)
    requires Inv(s) && t in s.pc && (s.pc[t] == SLook || s.pc[t] == BLook)
    ensures s.sem == 0 && !s.event && s.count == |Registered(s)|
  {
    OnlyWaker(s, t);
    assert Registered(s) == Those(s.pc, IsCounted);
  }

  /** The thread goes on `n` times, and no other does. */
  function Own(t: Tid, n: nat): seq<Turn> {
    if n == 0 then [] else [Turn(t, Continue)] + Own(t, n - 1)
  }

  lemma OwnStep(s: State, t: Tid, n: nat)
    requires n > 0 && t in s.pc && s.pc[t] != Idle && Next(s, t).Some?
    ensures Run(s, Own(t, n)) == Run(Next(s, t).value, Own(t, n - 1))
    ensures Own(t, 0) == [] && forall x :: Run(x, []) == x
  {
    hide Next;
  }

  lemma OwnSteps(s: State, s1: State, s2: State, s3: State, t: Tid)
    requires t in s.pc && s.pc[t] != Idle && Next(s, t) == Some(s1)
    requires t in s1.pc && s1.pc[t] != Idle && Next(s1, t) == Some(s2)
    requires t in s2.pc && s2.pc[t] != Idle && Next(s2, t) == Some(s3)
    ensures Run(s, Own(t, 3)) == s3
  {
    hide Next, Run, Own;
    OwnStep(s, t, 3);
    OwnStep(s1, t, 2);
    OwnStep(s2, t, 1);
  }

  // ----- whole calls -----

  function After(s: State, turn: Turn): State {
    var n := Step(s, turn.t, turn.call);
    if n.Some? then n.value else s
  }

  /** The thread is in its call before and after every turn. */
  predicate Stays(s: State, t: Tid, turns: seq<Turn>)
    decreases |turns|
  {
    t in s.pc && s.pc[t] != Idle && (turns != [] ==> Stays(After(s, turns[0]), t, turns[1..]))
  }

  predicate BeforeLook(p: Pc) {
    p.SLockBroadcast? || p.SLockCount? || p.SLook? || p.BLockBroadcast? || p.BLockCount? || p.BLook?
  }

  /** From the look on, the record is of this call. */
  lemma {:induction false} SinceLook(s: State, t: Tid, turns: seq<Turn>)
    requires Inv(s) && Stays(s, t, turns) && Looked(s.pc[t])
    ensures var s' := Run(s, turns);
      && Inv(s') && t in s'.pc && Looked(s'.pc[t]) && s'.targets == s.targets
      && (InSignal(s'.pc[t]) <==> InSignal(s.pc[t]))
    decreases |turns|
  {
    hide Inv, Step, Looked;
    if turns != [] {
      var s1 := After(s, turns[0]);
      assert Run(s, turns) == Run(s1, turns[1..]);
      assert t in s1.pc && s1.pc[t] != Idle;
      var n := Step(s, turns[0].t, turns[0].call);
      if n.Some? {
        StepOk(s, turns[0].t, turns[0].call);
        if turns[0].t == t { OwnAfterLook(s, t, turns[0].call); } else { OthersAfterLook(s, t, turns[0]); }
      }
      SinceLook(s1, t, turns[1..]);
    }
  }

  lemma OwnAfterLook(s: State, t: Tid, call: Call)
    requires t in s.pc && Looked(s.pc[t]) && Step(s, t, call).Some? && At(Step(s, t, call).value, t) != Idle
    ensures var s1 := Step(s, t, call).value;
      && t in s1.pc && Looked(s1.pc[t]) && s1.targets == s.targets && (InSignal(s1.pc[t]) <==> InSignal(s.pc[t]))
  {
  }

  lemma OthersAfterLook(s: State, t: Tid, turn: Turn)
    requires Inv(s) && t in s.pc && Looked(s.pc[t]) && turn.t != t && Step(s, turn.t, turn.call).Some?
    ensures var s1 := Step(s, turn.t, turn.call).value;
      t in s1.pc && s1.pc[t] == s.pc[t] && s1.targets == s.targets
  {
    LookedInside(s.pc[t]);
    OnlyOne(s, t, turn.t);
    hide Inv, InBroadcastLock, Looked;
    OthersStep(s, t, turn);
    SameTargets(s, turn);
  }

  lemma LookedInside(p: Pc)
    requires Looked(p)
    ensures InBroadcastLock(p)
  {
  }

  lemma SameTargets(s: State, turn: Turn)
    requires Step(s, turn.t, turn.call).Some? && !InBroadcastLock(s.pc[turn.t])
    ensures Step(s, turn.t, turn.call).value.targets == s.targets
  {
  }

  lemma OnlyOne(s: State, t: Tid, x: Tid)
    requires Inv(s) && t in s.pc && InBroadcastLock(s.pc[t]) && x in s.pc && x != t
    ensures !InBroadcastLock(s.pc[x])
  {
  }

  /** Where the call looks */
  lemma {:induction false} FindLook(s: State, t: Tid, turns: seq<Turn>) returns (k: nat)
    requires Inv(s) && Stays(s, t, turns) && BeforeLook(s.pc[t]) && Looked(At(Run(s, turns), t))
    ensures k < |turns| && turns[k].t == t
    ensures var x := Run(s, turns[..k]);
      && Inv(x) && t in x.pc && (if InSignal(s.pc[t]) then x.pc[t] == SLook else x.pc[t] == BLook)
      && Step(x, t, turns[k].call).Some? && Stays(After(x, turns[k]), t, turns[k + 1..])
      && Run(After(x, turns[k]), turns[k + 1..]) == Run(s, turns)
    decreases |turns|
  {
    hide Inv, Step;
    assert turns != [];
    var s1 := After(s, turns[0]);
    assert Run(s, turns) == Run(s1, turns[1..]);
    var n := Step(s, turns[0].t, turns[0].call);
    if n.Some? { StepOk(s, turns[0].t, turns[0].call); }
    if turns[0].t == t && n.Some? && (s.pc[t] == SLook || s.pc[t] == BLook) {
      k := 0;
      assert turns[..0] == [];
    } else {
      if n.Some? {
        if turns[0].t == t { OwnBeforeLook(s, t, turns[0].call); } else { OthersStep(s, t, turns[0]); }
      }
      k := FindLook(s1, t, turns[1..]);
      assert turns[..k + 1][0] == turns[0] && turns[..k + 1][1..] == turns[1..][..k];
      assert turns[1..][k + 1..] == turns[k + 2..];
      k := k + 1;
    }
  }

  lemma OwnBeforeLook(s: State, t: Tid, call: Call)
    requires t in s.pc && BeforeLook(s.pc[t]) && s.pc[t] != SLook && s.pc[t] != BLook && Step(s, t, call).Some?
    ensures var s1 := Step(s, t, call).value;
      t in s1.pc && BeforeLook(s1.pc[t]) && (InSignal(s1.pc[t]) <==> InSignal(s.pc[t]))
  {
  }

  lemma OthersStep(s: State, t: Tid, turn: Turn)
    requires t in s.pc && turn.t != t && Step(s, turn.t, turn.call).Some?
    ensures var s1 := Step(s, turn.t, turn.call).value; t in s1.pc && s1.pc[t] == s.pc[t]
  {
  }

  /** Before it lets the broadcast lock go, who is still registered is who was so at the look and has got no token. */
  lemma AtTheEnd(s: State, t: Tid)
    requires Inv(s) && t in s.pc && (s.pc[t] == SUnlockBroadcast || s.pc[t] == BUnlockBroadcast)
    ensures Registered(s) == s.targets - s.taken && s.taken <= s.targets && s.sem == 0 && !s.event && !s.isBroadcast
    ensures s.pc[t] == SUnlockBroadcast ==> |s.taken| == One(s.targets != {})
    ensures s.pc[t] == BUnlockBroadcast ==> s.taken == s.targets
  {
    OnlyWaker(s, t);
    forall x | x in s.pc
      ensures IsCounted(s.pc[x]) <==> Waiting(s.pc[x])
    {
      assert HasToken(s.pc[x]) ==> x in Those(s.pc, HasToken);
      if x != t { OnlyOne(s, t, x); }
    }
  }

  /** A whole signal, from its first step to its last: of the threads that are registered when it looks exactly one is
      woken, and none if there is none. A whole broadcast wakes them all. In between the other threads take any turns,
      and afterwards semaphore and event are as before the call. */
  lemma WholeCall(s: State, t: Tid, turns: seq<Turn>) returns (k: nat)
    requires Inv(s) && Stays(s, t, turns) && (s.pc[t] == SLockBroadcast || s.pc[t] == BLockBroadcast)
    requires var p := At(Run(s, turns), t); p == SUnlockBroadcast || p == BUnlockBroadcast
    ensures k < |turns| && turns[k].t == t
    ensures var look, s' := Run(s, turns[..k]), Run(s, turns);
      && At(look, t) == (if s.pc[t] == SLockBroadcast then SLook else BLook)
      && Registered(s') <= Registered(look) && s'.taken == Registered(look) - Registered(s')
      && (if s.pc[t] == SLockBroadcast then |s'.taken| == One(Registered(look) != {}) else Registered(s') == {})
      && s'.sem == 0 && !s'.event && !s'.isBroadcast
  {
    hide Inv, Registered, Step, Next, Run, After, Looked, BeforeLook, InSignal;
    CallKinds(s.pc[t], At(Run(s, turns), t));
    k := FindLook(s, t, turns);
    var look := Run(s, turns[..k]);
    Looks(look, t, turns[k]);
    StepOk(look, t, turns[k].call);
    SinceLook(After(look, turns[k]), t, turns[k + 1..]);
    AtTheEnd(Run(s, turns), t);
  }

  lemma CallKinds(p: Pc, q: Pc)
    requires p == SLockBroadcast || p == BLockBroadcast
    requires q == SUnlockBroadcast || q == BUnlockBroadcast
    ensures BeforeLook(p) && Looked(q) && (InSignal(p) <==> p == SLockBroadcast)
    ensures (InSignal(q) <==> q == SUnlockBroadcast)
  {
  }

  lemma Looks(s: State, t: Tid, turn: Turn)
    requires turn.t == t && t in s.pc && (s.pc[t] == SLook || s.pc[t] == BLook) && Step(s, t, turn.call).Some?
    ensures var s1 := After(s, turn);
      && After(s, turn) == Step(s, t, turn.call).value
      && t in s1.pc && Looked(s1.pc[t]) && s1.targets == Registered(s)
      && (InSignal(s1.pc[t]) <==> s.pc[t] == SLook)
  {
    hide Registered;
  }

  /** The same for every call in every run of a new condition variable. */
  lemma EveryCall(threads: set<Tid>, before: seq<Turn>, t: Tid, turns: seq<Turn>) returns (k: nat)
    requires var s := Run(Initial(threads), before);
      && Stays(s, t, turns) && (s.pc[t] == SLockBroadcast || s.pc[t] == BLockBroadcast)
      && (At(Run(s, turns), t) == SUnlockBroadcast || At(Run(s, turns), t) == BUnlockBroadcast)
    ensures k < |turns| && turns[k].t == t
    ensures var s := Run(Initial(threads), before);
      var look, s' := Run(s, turns[..k]), Run(s, turns);
      && At(look, t) == (if At(s, t) == SLockBroadcast then SLook else BLook)
      && Registered(s') <= Registered(look)
      && (if At(s, t) == SLockBroadcast then |Registered(look) - Registered(s')| == One(Registered(look) != {})
          else Registered(s') == {})
      && s'.sem == 0 && !s'.event && !s'.isBroadcast
  {
    hide Inv, Registered;
    FromStart(threads, before);
    k := WholeCall(Run(Initial(threads), before), t, turns);
  }

  // ----- the waits -----

  /** A wait releases the mutex only when it is registered, so that no later signal or broadcast misses it, and it ends
      with the mutex locked. */
  lemma WaitKeepsMutex(s: State, t: Tid, call: Call)
    requires Inv(s) && Step(s, t, call).Some?
    ensures var s' := Step(s, t, call).value;
      && (call == Wait ==> s.mutex == Some(t))
      && (BeforeUnlock(s.pc[t]) ==> s.mutex == Some(t))
      && (BeforeUnlock(s.pc[t]) && !BeforeUnlock(At(s', t)) ==>
            t in Registered(s) && t in Registered(s') && s'.mutex == None && s'.broadcastLock != Some(t))
      && (s.pc[t] != Idle && At(s', t) == Idle && !InSignal(s.pc[t]) && !InBroadcastCall(s.pc[t]) ==>
            s.mutex == None && s'.mutex == Some(t))
  {
    assert LocksOk(s);
    hide Inv;
  }

  /** A waiter is woken only by a signal or broadcast that looked after it had registered, and only once by each. */
  lemma WokenByCall(s: State, t: Tid)
    requires Inv(s) && t in s.pc && s.pc[t] == WSemaphore && Next(s, t).Some?
    ensures s.broadcastLock.Some? && IsWaking(At(s, s.broadcastLock.value)) && t in s.targets && t !in s.taken
    ensures t in Next(s, t).value.taken
  {
  }
}

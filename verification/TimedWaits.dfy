/** Waits that may time out. A waiter that gives up tells nobody, so a signal or broadcast that has counted it may
    wait for
    ever, and all later calls behind it: exactly when this happens. */
module TimedWaits {
  import opened Basics
  import opened CondVar

  /** `expired`: who has given up waiting for a token and has not yet taken itself off the count. */
  datatype Timed = Timed(s: State, expired: set<Tid>)

  datatype TimedTurn = TimedTurn(t: Tid, call: Call, timeout: bool)

  function PcOf(x: Timed, t: Tid): Pc { At(x.s, t) }

  /** The step of a thread. A wait for a token may end without one; whoever has given up never sets the event. */
  function TimedStep(x: Timed, turn: TimedTurn): Option<Timed> {
    var t := turn.t;
    if turn.call == Continue && turn.timeout && PcOf(x, t) == WSemaphore then
      Some(Timed(To(x.s, t, WLockAgain), x.expired + {t}))
    else if turn.call == Continue && t in x.expired && PcOf(x, t) == WUncount then
      Some(Timed(To(x.s, t, WUnlockAgain(false)).(count := x.s.count - 1), x.expired - {t}))
    else
      match Step(x.s, t, turn.call)
      case None => None
      case Some(s') => Some(Timed(s', x.expired))
  }

  function TimedAfter(x: Timed, turn: TimedTurn): Timed {
    var n := TimedStep(x, turn);
    if n.Some? then n.value else x
  }

  function TimedRun(x: Timed, turns: seq<TimedTurn>): Timed
    decreases |turns|
  {
    if turns == [] then x else TimedRun(TimedAfter(x, turns[0]), turns[1..])
  }

  // ----- the invariant -----

  /** Waits for a token, or has one, and has not given up. */
  predicate Hopeful(x: Timed, t: Tid) {
    t in x.s.pc && IsCounted(x.s.pc[t]) && t !in x.expired
  }

  predicate Holder(x: Timed, t: Tid) {
    t in x.s.pc && HasToken(x.s.pc[t]) && t !in x.expired
  }

  predicate WillSet(x: Timed, t: Tid) {
    t in x.s.pc && IsLast(x.s.pc[t])
  }

  predicate InBroadcastPhase(p: Pc) { p.BRelease? || p.BUnlockCount? || p.BWait? || p.BDone? }

  ghost predicate TokensOk(x: Timed) {
    match Waker(x.s)
    case SWait => x.s.sem > 0 || x.s.event || exists t :: Holder(x, t) || WillSet(x, t)
    case BUnlockCount => x.s.sem >= N(x.s, Waiting)
    case BWait => x.s.sem >= N(x.s, Waiting)
    case _ => true
  }

  ghost predicate TimedInv(x: Timed) {
    && LocksOk(x.s) && x.s.count == N(x.s, IsCounted)
    && (x.s.isBroadcast <==> InBroadcastPhase(Waker(x.s)))
    && (forall t :: t in x.expired ==> t in x.s.pc && HasToken(x.s.pc[t]))
    && TokensOk(x)
  }

  function TimedStart(threads: set<Tid>): Timed { Timed(Initial(threads), {}) }

  lemma TimedStartOk(threads: set<Tid>)
    ensures TimedInv(TimedStart(threads))
  {
    InitialOk(threads);
  }

  // ----- one step -----

  /** The number of counted threads after a step */
  lemma CountAfter(s: State, t: Tid, s': State)
    requires t in s.pc && t in s'.pc && s'.pc == s.pc[t := s'.pc[t]] && s.count == N(s, IsCounted)
    requires s'.count - s.count == One(IsCounted(s'.pc[t])) - One(IsCounted(s.pc[t]))
    ensures s'.count == N(s', IsCounted)
  {
    CountStep(s.pc, t, s'.pc[t], IsCounted);
    hide IsCounted;
  }

  lemma NextCounts(s: State, t: Tid)
    requires t in s.pc && s.pc[t] != Idle && Next(s, t).Some?
    ensures var s' := Next(s, t).value;
      t in s'.pc && s'.count - s.count == One(IsCounted(s'.pc[t])) - One(IsCounted(s.pc[t]))
  {
    hide NextSignal, NextBroadcast, NextEnter, NextWait, IsCounted;
    if InSignal(s.pc[t]) {
      SignalCounts(s, t);
    } else if InBroadcastCall(s.pc[t]) {
      BroadcastCounts(s, t);
    } else if BeforeUnlock(s.pc[t]) {
      EnterCounts(s, t);
    } else {
      WaitCounts(s, t);
    }
  }

  lemma SignalCounts(s: State, t: Tid)
    requires t in s.pc && NextSignal(s, t).Some?
    ensures var s' := NextSignal(s, t).value;
      t in s'.pc && s'.count - s.count == One(IsCounted(s'.pc[t])) - One(IsCounted(s.pc[t]))
  {
  }

  lemma BroadcastCounts(s: State, t: Tid)
    requires t in s.pc && NextBroadcast(s, t).Some?
    ensures var s' := NextBroadcast(s, t).value;
      t in s'.pc && s'.count - s.count == One(IsCounted(s'.pc[t])) - One(IsCounted(s.pc[t]))
  {
  }

  lemma EnterCounts(s: State, t: Tid)
    requires t in s.pc && NextEnter(s, t).Some?
    ensures var s' := NextEnter(s, t).value;
      t in s'.pc && s'.count - s.count == One(IsCounted(s'.pc[t])) - One(IsCounted(s.pc[t]))
  {
  }

  lemma WaitCounts(s: State, t: Tid)
    requires t in s.pc && NextWait(s, t).Some?
    ensures var s' := NextWait(s, t).value;
      t in s'.pc && s'.count - s.count == One(IsCounted(s'.pc[t])) - One(IsCounted(s.pc[t]))
  {
  }

  /** The waker, and the flag that it sets and clears */
  lemma FlagStep(s: State, t: Tid)
    requires LocksOk(s) && t in s.pc && s.pc[t] != Idle && Next(s, t).Some?
    requires (s.isBroadcast <==> InBroadcastPhase(Waker(s)))
    ensures var s' := Next(s, t).value; s'.isBroadcast <==> InBroadcastPhase(Waker(s'))
  {
    hide LocksOk, Next, Waker, InBroadcastLock, InBroadcastPhase;
    WakerStep(s, t, Next(s, t).value);
    FlagChange(s, t);
    PhaseInside(s.pc[t]);
    PhaseInside(Next(s, t).value.pc[t]);
    PhaseInside(Idle);
  }

  lemma PhaseInside(p: Pc)
    ensures InBroadcastPhase(p) ==> InBroadcastLock(p) && p != Idle
  {
  }

  lemma FlagChange(s: State, t: Tid)
    requires t in s.pc && s.pc[t] != Idle && Next(s, t).Some?
    ensures var s' := Next(s, t).value;
      && t in s'.pc
      && (InBroadcastPhase(s'.pc[t]) != InBroadcastPhase(s.pc[t]) ==> s'.isBroadcast == InBroadcastPhase(s'.pc[t]))
      && (InBroadcastPhase(s'.pc[t]) == InBroadcastPhase(s.pc[t]) ==> s'.isBroadcast == s.isBroadcast)
      && (InBroadcastPhase(s'.pc[t]) != InBroadcastPhase(s.pc[t]) ==> InBroadcastLock(s.pc[t]))
      && (InBroadcastPhase(s'.pc[t]) && !InBroadcastPhase(s.pc[t]) ==> s.pc[t] == BLook)
  {
    hide NextSignal, NextBroadcast, NextEnter, NextWait, InBroadcastPhase, InBroadcastLock;
    if InSignal(s.pc[t]) {
      SignalFlag(s, t);
    } else if InBroadcastCall(s.pc[t]) {
      BroadcastFlag(s, t);
    } else {
      WaitFlag(s, t);
    }
  }

  lemma SignalFlag(s: State, t: Tid)
    requires t in s.pc && NextSignal(s, t).Some?
    ensures var s' := NextSignal(s, t).value;
      t in s'.pc && s'.isBroadcast == s.isBroadcast && !InBroadcastPhase(s'.pc[t]) && !InBroadcastPhase(s.pc[t])
  {
  }

  lemma WaitFlag(s: State, t: Tid)
    requires t in s.pc
    ensures NextEnter(s, t).Some? ==>
      var s' := NextEnter(s, t).value;
      t in s'.pc && s'.isBroadcast == s.isBroadcast && !InBroadcastPhase(s'.pc[t]) && !InBroadcastPhase(s.pc[t])
    ensures NextWait(s, t).Some? ==>
      var s' := NextWait(s, t).value;
      t in s'.pc && s'.isBroadcast == s.isBroadcast && !InBroadcastPhase(s'.pc[t]) && !InBroadcastPhase(s.pc[t])
  {
  }

  lemma BroadcastFlag(s: State, t: Tid)
    requires t in s.pc && NextBroadcast(s, t).Some?
    ensures var s' := NextBroadcast(s, t).value;
      && t in s'.pc
      && (InBroadcastPhase(s'.pc[t]) != InBroadcastPhase(s.pc[t]) ==> s'.isBroadcast == InBroadcastPhase(s'.pc[t]))
      && (InBroadcastPhase(s'.pc[t]) == InBroadcastPhase(s.pc[t]) ==> s'.isBroadcast == s.isBroadcast)
      && (InBroadcastPhase(s'.pc[t]) != InBroadcastPhase(s.pc[t]) ==> InBroadcastLock(s.pc[t]))
      && (InBroadcastPhase(s'.pc[t]) && !InBroadcastPhase(s.pc[t]) ==> s.pc[t] == BLook)
  {
  }

  // ----- tokens -----

  /** What a step of a thread outside the broadcast lock does to semaphore and event */
  predicate OutsideStep(s: State, t: Tid, s': State)
    requires t in s.pc && t in s'.pc
  {
    match s.pc[t]
    case WSemaphore => s.sem > 0 && s'.pc[t] == WLockAgain && s'.sem == s.sem - 1 && s'.event == s.event
    case WLockAgain => s'.pc[t] == WUncount && s'.sem == s.sem && s'.event == s.event
    case WUncount => s'.pc[t] == WUnlockAgain(s.count == 1 || !s.isBroadcast) && s'.sem == s.sem && s'.event == s.event
    case WUnlockAgain(last) => s'.pc[t] == WEvent(last) && s'.sem == s.sem && s'.event == s.event
    case WEvent(last) => s'.pc[t] == WLockMutex && s'.sem == s.sem && s'.event == (last || s.event)
    case p =>
      && (IsCounted(s'.pc[t]) <==> IsCounted(p)) && (Waiting(s'.pc[t]) <==> Waiting(p))
      && (HasToken(s'.pc[t]) <==> HasToken(p)) && !IsLast(s'.pc[t]) && !IsLast(p)
  }

  lemma OutsideSteps(s: State, t: Tid)
    requires t in s.pc && s.pc[t] != Idle && !InBroadcastLock(s.pc[t]) && Next(s, t).Some?
    requires !InBroadcastLock(Next(s, t).value.pc[t])
    ensures var s' := Next(s, t).value;
      && t in s'.pc && s'.pc == s.pc[t := s'.pc[t]] && OutsideStep(s, t, s')
      && (!s.pc[t].WSemaphore? && !s.pc[t].WEvent? ==> s'.sem == s.sem && s'.event == s.event)
  {
  }

  lemma WaitingAfter(s: State, t: Tid, s': State)
    requires t in s.pc && t in s'.pc && s'.pc == s.pc[t := s'.pc[t]]
    ensures N(s', Waiting) == N(s, Waiting) - One(Waiting(s.pc[t])) + One(Waiting(s'.pc[t]))
  {
    CountStep(s.pc, t, s'.pc[t], Waiting);
    hide Waiting;
  }

  lemma WaitingCounted(s: State)
    ensures N(s, Waiting) <= N(s, IsCounted)
  {
    SubsetSize(Those(s.pc, Waiting), Those(s.pc, IsCounted));
  }

  /** While a signal waits, its token is there, or somebody has it, or the event is on the way. */
  lemma SignalToken(x: Timed, t: Tid, s': State)
    requires t in x.s.pc && t in s'.pc && s'.pc == x.s.pc[t := s'.pc[t]] && OutsideStep(x.s, t, s')
    requires !x.s.pc[t].WSemaphore? && !x.s.pc[t].WEvent? ==> s'.sem == x.s.sem && s'.event == x.s.event
    requires !x.s.isBroadcast && (t in x.expired ==> HasToken(x.s.pc[t]) && x.s.pc[t] != WUncount)
    requires x.s.sem > 0 || x.s.event || exists u :: Holder(x, u) || WillSet(x, u)
    ensures var x' := Timed(s', x.expired);
      s'.sem > 0 || s'.event || exists u :: Holder(x', u) || WillSet(x', u)
  {
    var x' := Timed(s', x.expired);
    if s'.sem == 0 && !s'.event {
      if x.s.pc[t].WSemaphore? {
        assert Holder(x', t);
      } else if !x.s.event && x.s.sem == 0 {
        var u :| Holder(x, u) || WillSet(x, u);
        if u == t {
          assert Holder(x', t) || WillSet(x', t);
        } else {
          assert Holder(x', u) || WillSet(x', u);
        }
      }
    }
  }

  lemma TokensStep(x: Timed, t: Tid)
    requires TimedInv(x) && t in x.s.pc && x.s.pc[t] != Idle && Next(x.s, t).Some?
    requires t in x.expired ==> x.s.pc[t] != WUncount
    ensures TokensOk(Timed(Next(x.s, t).value, x.expired))
  {
    hide LocksOk, Waker, InBroadcastLock, Next, IsCounted, Waiting, N, Holder, WillSet, OutsideStep;
    var s, s' := x.s, Next(x.s, t).value;
    WakerStep(s, t, s');
    WaitingAfter(s, t, s');
    WaitingCounted(s);
    if InBroadcastLock(s.pc[t]) {
      InsideTokens(s, t, s');
    } else if InBroadcastLock(s'.pc[t]) {
      EntersLow(s, t);
    } else {
      OutsideSteps(s, t);
      OutsideTokens(x, t, s');
    }
  }

  lemma OutsideTokens(x: Timed, t: Tid, s': State)
    requires TimedInv(x) && t in x.s.pc && t in s'.pc && s'.pc == x.s.pc[t := s'.pc[t]] && OutsideStep(x.s, t, s')
    requires !x.s.pc[t].WSemaphore? && !x.s.pc[t].WEvent? ==> s'.sem == x.s.sem && s'.event == x.s.event
    requires t in x.expired ==> x.s.pc[t] != WUncount
    requires Waker(s') == Waker(x.s)
    requires N(s', Waiting) == N(x.s, Waiting) - One(Waiting(x.s.pc[t])) + One(Waiting(s'.pc[t]))
    ensures TokensOk(Timed(s', x.expired))
  {
    hide LocksOk, Waker, N, Holder, WillSet, OutsideStep;
    if Waker(x.s).SWait? {
      SignalToken(x, t, s');
    } else {
      FewerWait(x.s, t, s');
    }
  }

  lemma FewerWait(s: State, t: Tid, s': State)
    requires t in s.pc && t in s'.pc && OutsideStep(s, t, s')
    requires !s.pc[t].WSemaphore? && !s.pc[t].WEvent? ==> s'.sem == s.sem
    ensures s.sem - One(Waiting(s.pc[t])) <= s'.sem - One(Waiting(s'.pc[t]))
  {
  }

  /** The steps of the waker */
  lemma InsideTokens(s: State, t: Tid, s': State)
    requires t in s.pc && InBroadcastLock(s.pc[t]) && Next(s, t) == Some(s') && t in s'.pc
    ensures s'.pc[t] == SWait ==> s'.sem > 0
    ensures s'.pc[t] == BUnlockCount ==> s.pc[t] == BRelease && s'.sem >= s.sem && s'.sem >= s.count
    ensures s'.pc[t] == BWait ==> s.pc[t] == BUnlockCount && s'.sem == s.sem
    ensures s'.pc[t].BUnlockCount? || s'.pc[t].BWait? ==> !Waiting(s.pc[t]) && !Waiting(s'.pc[t])
  {
    hide NextSignal, NextBroadcast, NextEnter, NextWait;
    if InSignal(s.pc[t]) {
      SignalTokens(s, t);
    } else if InBroadcastCall(s.pc[t]) {
      BroadcastTokens(s, t);
    } else {
      WaitTokens(s, t);
    }
  }

  lemma SignalTokens(s: State, t: Tid)
    requires t in s.pc && NextSignal(s, t).Some?
    ensures var s' := NextSignal(s, t).value;
      t in s'.pc && (s'.pc[t] == SWait ==> s'.sem > 0) && !s'.pc[t].BUnlockCount? && !s'.pc[t].BWait?
  {
  }

  lemma BroadcastTokens(s: State, t: Tid)
    requires t in s.pc && NextBroadcast(s, t).Some?
    ensures var s' := NextBroadcast(s, t).value;
      && t in s'.pc && s'.pc[t] != SWait
      && (s'.pc[t] == BUnlockCount ==> s.pc[t] == BRelease && s'.sem >= s.sem && s'.sem >= s.count)
      && (s'.pc[t] == BWait ==> s.pc[t] == BUnlockCount && s'.sem == s.sem)
  {
  }

  lemma WaitTokens(s: State, t: Tid)
    requires t in s.pc
    ensures NextEnter(s, t).Some? ==> var s' := NextEnter(s, t).value; t in s'.pc && !IsWaking(s'.pc[t])
    ensures NextWait(s, t).Some? ==> var s' := NextWait(s, t).value; t in s'.pc && !IsWaking(s'.pc[t])
  {
  }

  lemma EntersLow(s: State, t: Tid)
    requires t in s.pc && !InBroadcastLock(s.pc[t]) && Next(s, t).Some? && t in Next(s, t).value.pc
    requires InBroadcastLock(Next(s, t).value.pc[t])
    ensures !IsWaking(Next(s, t).value.pc[t])
  {
  }

  // ----- every step keeps the invariant -----

  lemma TimedStepOk(x: Timed, turn: TimedTurn)
    requires TimedInv(x) && TimedStep(x, turn).Some?
    ensures TimedInv(TimedStep(x, turn).value)
  {
    var t := turn.t;
    if turn.call == Continue && turn.timeout && PcOf(x, t) == WSemaphore {
      ExpireOk(x, t);
    } else if turn.call == Continue && t in x.expired && PcOf(x, t) == WUncount {
      GiveUpOk(x, t);
    } else if x.s.pc[t] == Idle {
      TimedStartStep(x, t, turn.call);
    } else {
      TimedNextOk(x, t);
    }
  }

  lemma ExpireOk(x: Timed, t: Tid)
    requires TimedInv(x) && PcOf(x, t) == WSemaphore
    ensures TimedInv(Timed(To(x.s, t, WLockAgain), x.expired + {t}))
  {
    var s' := To(x.s, t, WLockAgain);
    var x' := Timed(s', x.expired + {t});
    assert t in x'.expired ==> HasToken(s'.pc[t]);
    QuietMove(x, x', t);
  }

  lemma GiveUpOk(x: Timed, t: Tid)
    requires TimedInv(x) && t in x.expired && PcOf(x, t) == WUncount
    ensures TimedInv(Timed(To(x.s, t, WUnlockAgain(false)).(count := x.s.count - 1), x.expired - {t}))
  {
    var s' := To(x.s, t, WUnlockAgain(false)).(count := x.s.count - 1);
    QuietMove(x, Timed(s', x.expired - {t}), t);
  }

  /** A step that takes no lock and leaves none, and takes no token and sets no event */
  lemma QuietMove(x: Timed, x': Timed, t: Tid)
    requires TimedInv(x) && t in x.s.pc && t in x'.s.pc && x'.s.pc == x.s.pc[t := x'.s.pc[t]]
    requires x'.s == x.s.(pc := x'.s.pc, count := x'.s.count)
    requires x'.s.count - x.s.count == One(IsCounted(x'.s.pc[t])) - One(IsCounted(x.s.pc[t]))
    requires !InBroadcastLock(x.s.pc[t]) && !InBroadcastLock(x'.s.pc[t])
    requires (InCountLock(x.s.pc[t]) <==> InCountLock(x'.s.pc[t])) && !BeforeUnlock(x'.s.pc[t])
    requires !Waiting(x'.s.pc[t]) && !Holder(x, t) && !WillSet(x, t)
    requires forall u :: u != t ==> (u in x'.expired <==> u in x.expired)
    requires t in x'.expired ==> HasToken(x'.s.pc[t])
    ensures TimedInv(x')
  {
    hide LocksOk, Waker, N, Holder, WillSet, InBroadcastLock, InCountLock, BeforeUnlock, Waiting, IsCounted, HasToken,
        InBroadcastPhase;
    CountAfter(x.s, t, x'.s);
    WaitingAfter(x.s, t, x'.s);
    PlainMove(x.s, t, x'.s);
    OthersHold(x, x', t);
  }

  /** A step that takes no lock and leaves none */
  lemma PlainMove(s: State, t: Tid, s': State)
    requires LocksOk(s) && t in s.pc && t in s'.pc && s'.pc == s.pc[t := s'.pc[t]]
    requires s'.broadcastLock == s.broadcastLock && s'.countLock == s.countLock && s'.mutex == s.mutex
    requires !InBroadcastLock(s.pc[t]) && !InBroadcastLock(s'.pc[t])
    requires (InCountLock(s.pc[t]) <==> InCountLock(s'.pc[t]))
    requires !BeforeUnlock(s'.pc[t])
    ensures LocksOk(s') && Waker(s') == Waker(s)
  {
    hide InBroadcastLock, InCountLock, BeforeUnlock;
  }

  /** Whoever has given up holds no token and sets no event. */
  lemma OthersHold(x: Timed, x': Timed, t: Tid)
    requires t in x.s.pc && t in x'.s.pc && x'.s.pc == x.s.pc[t := x'.s.pc[t]] && !Holder(x, t) && !WillSet(x, t)
    requires forall u :: u != t ==> (u in x'.expired <==> u in x.expired)
    ensures (exists u :: Holder(x, u) || WillSet(x, u)) ==> exists u :: Holder(x', u) || WillSet(x', u)
  {
    if u :| Holder(x, u) || WillSet(x, u) { assert Holder(x', u) || WillSet(x', u); }
  }

  lemma TimedStartStep(x: Timed, t: Tid, call: Call)
    requires TimedInv(x) && t in x.s.pc && x.s.pc[t] == Idle && Start(x.s, t, call).Some?
    ensures TimedInv(Timed(Start(x.s, t, call).value, x.expired))
  {
    hide LocksOk, Waker, N, Holder, WillSet, Start, InBroadcastPhase, IsCounted, Waiting;
    var s' := Start(x.s, t, call).value;
    StartLocks(x.s, t, call);
    StartFields(x.s, t, call);
    StartIs(x.s, t, call);
    CountAfter(x.s, t, s');
    WaitingAfter(x.s, t, s');
    NoHolder(x, t);
    OthersHold(x, Timed(s', x.expired), t);
  }

  lemma NoHolder(x: Timed, t: Tid)
    requires PcOf(x, t) == Idle
    ensures !Holder(x, t) && !WillSet(x, t)
  {
  }

  lemma StartIs(s: State, t: Tid, call: Call)
    requires LocksOk(s) && t in s.pc && s.pc[t] == Idle && Start(s, t, call).Some?
    ensures var s' := Start(s, t, call).value;
      && t in s'.pc && s'.pc == s.pc[t := s'.pc[t]] && s'.broadcastLock == s.broadcastLock && Waker(s') == Waker(s)
      && !IsCounted(s'.pc[t]) && !IsLast(s'.pc[t]) && !Waiting(s'.pc[t]) && !IsCounted(s.pc[t]) && !Waiting(s.pc[t])
  {
    assert s.broadcastLock != Some(t);
  }

  lemma TimedNextOk(x: Timed, t: Tid)
    requires TimedInv(x) && t in x.s.pc && x.s.pc[t] != Idle && Next(x.s, t).Some?
    requires t in x.expired ==> x.s.pc[t] != WUncount
    ensures TimedInv(Timed(Next(x.s, t).value, x.expired))
  {
    hide LocksOk, Waker, N, Next, TokensOk, InBroadcastPhase, IsCounted;
    var s' := Next(x.s, t).value;
    LocksStep(x.s, t, s');
    WakerStep(x.s, t, s');
    NextCounts(x.s, t);
    CountAfter(x.s, t, s');
    FlagStep(x.s, t);
    TokensStep(x, t);
    if t in x.expired { KeepsToken(x.s, t); }
  }

  lemma KeepsToken(s: State, t: Tid)
    requires t in s.pc && s.pc[t] == WLockAgain && Next(s, t).Some?
    ensures t in Next(s, t).value.pc && HasToken(Next(s, t).value.pc[t])
  {
  }

  lemma {:induction false} TimedRunOk(x: Timed, turns: seq<TimedTurn>)
    requires TimedInv(x)
    ensures TimedInv(TimedRun(x, turns))
    decreases |turns|
  {
    hide TimedInv, TimedStep;
    if turns != [] {
      if TimedStep(x, turns[0]).Some? { TimedStepOk(x, turns[0]); }
      TimedRunOk(TimedAfter(x, turns[0]), turns[1..]);
    }
  }

  // ----- waiting for ever -----

  /** Nobody can set the event any more: whoever still hopes is taking itself off the count of a broadcast, and is
      not the
      last there, while those that will be have given up. */
  ghost predicate Hopeless(x: Timed) {
    && IsWaking(Waker(x.s)) && !x.s.event
    && (forall t :: !WillSet(x, t))
    && forall t :: Hopeful(x, t) ==> LosesHope(x, t)
  }

  predicate LosesHope(x: Timed, t: Tid)
    requires t in x.s.pc
  {
    x.s.pc[t] == WUncount && x.s.isBroadcast && x.s.count != 1
  }

  lemma OnlyOneCounts(s: State, t: Tid, u: Tid)
    requires LocksOk(s) && t in s.pc && u in s.pc && InCountLock(s.pc[t]) && InCountLock(s.pc[u])
    ensures t == u
  {
  }

  lemma HopelessNext(x: Timed, t: Tid)
    requires TimedInv(x) && Hopeless(x) && t in x.s.pc && x.s.pc[t] != Idle && Next(x.s, t).Some?
    requires t in x.expired ==> x.s.pc[t] != WUncount
    ensures Hopeless(Timed(Next(x.s, t).value, x.expired)) && Next(x.s, t).value.broadcastLock == x.s.broadcastLock
  {
    var s, s' := x.s, Next(x.s, t).value;
    var x' := Timed(s', x.expired);
    WakerStep(s, t, s');
    OnlyWaker(s, t);
    hide LocksOk, Waker, N, Next, InBroadcastLock;
    if InBroadcastLock(s.pc[t]) {
      WakerWaitsOn(s, t);
      OthersHopeless(x, x', t);
    } else if InBroadcastLock(s'.pc[t]) {
      assert false;
    } else {
      OutsideSteps(s, t);
      SameLock(s, t);
      OutsideHopeless(x, t, s');
    }
  }

  lemma SameLock(s: State, t: Tid)
    requires t in s.pc && s.pc[t] != Idle && Next(s, t).Some? && !InBroadcastLock(s.pc[t])
    requires !InBroadcastLock(Next(s, t).value.pc[t])
    ensures var s' := Next(s, t).value;
      s'.broadcastLock == s.broadcastLock && s'.isBroadcast == s.isBroadcast &&
          (s.pc[t] != WUncount ==> s'.count == s.count)
  {
  }

  lemma WakerWaitsOn(s: State, t: Tid)
    requires t in s.pc && IsWaking(s.pc[t]) && !s.event && Next(s, t).Some?
    ensures var s' := Next(s, t).value;
      && s.pc[t] == BUnlockCount && t in s'.pc && s'.pc[t] == BWait && !s'.event && s'.broadcastLock == s.broadcastLock
      && s'.count == s.count && s'.isBroadcast == s.isBroadcast && !IsCounted(s.pc[t])
  {
  }

  /** The other threads are as before. */
  lemma OthersHopeless(x: Timed, x': Timed, t: Tid)
    requires Hopeless(x) && t in x.s.pc && t in x'.s.pc && x'.s.pc == x.s.pc[t := x'.s.pc[t]]
    requires IsWaking(Waker(x'.s)) && !x'.s.event && x'.s.count == x.s.count && x'.s.isBroadcast == x.s.isBroadcast
    requires !IsLast(x'.s.pc[t]) && (IsCounted(x'.s.pc[t]) ==> t in x'.expired)
    requires forall u :: u != t ==> (u in x'.expired <==> u in x.expired)
    ensures Hopeless(x')
  {
    hide Waker;
    forall u ensures !WillSet(x', u) { if u != t { assert !WillSet(x, u); } }
    forall u | Hopeful(x', u) ensures LosesHope(x', u) { assert u != t && Hopeful(x, u); }
  }

  lemma OutsideHopeless(x: Timed, t: Tid, s': State)
    requires TimedInv(x) && Hopeless(x) && t in x.s.pc && t in s'.pc && s'.pc == x.s.pc[t := s'.pc[t]]
    requires OutsideStep(x.s, t, s') && s'.isBroadcast == x.s.isBroadcast && IsWaking(Waker(s'))
    requires !x.s.pc[t].WSemaphore? && !x.s.pc[t].WEvent? ==> s'.event == x.s.event
    requires x.s.pc[t] != WUncount ==> s'.count == x.s.count
    requires t in x.expired ==> x.s.pc[t] != WUncount
    ensures Hopeless(Timed(s', x.expired))
  {
    var x' := Timed(s', x.expired);
    assert !WillSet(x, t);
    if x.s.pc[t] == WUncount {
      assert Hopeful(x, t);
      forall u | Hopeful(x, u) ensures u == t { OnlyOneCounts(x.s, t, u); }
      NoneHopeful(x, x', t);
    } else {
      if IsCounted(x.s.pc[t]) && t !in x.expired { assert Hopeful(x, t); }
      OthersHopeless(x, x', t);
    }
  }

  /** The only one that still hoped has lost hope. */
  lemma NoneHopeful(x: Timed, x': Timed, t: Tid)
    requires Hopeless(x) && t in x.s.pc && t in x'.s.pc && x'.s.pc == x.s.pc[t := x'.s.pc[t]]
    requires IsWaking(Waker(x'.s)) && !x'.s.event && !IsLast(x'.s.pc[t]) && !IsCounted(x'.s.pc[t])
    requires forall u :: u != t ==> (u in x'.expired <==> u in x.expired)
    requires forall u :: Hopeful(x, u) ==> u == t
    ensures Hopeless(x')
  {
    hide Waker;
    forall u ensures !WillSet(x', u) { if u != t { assert !WillSet(x, u); } }
    forall u ensures !Hopeful(x', u) { assert u != t && Hopeful(x', u) ==> Hopeful(x, u); }
  }

  /** No step of any thread helps. */
  lemma HopelessStays(x: Timed, turn: TimedTurn)
    requires TimedInv(x) && Hopeless(x) && TimedStep(x, turn).Some?
    ensures var x' := TimedStep(x, turn).value; Hopeless(x') && x'.s.broadcastLock == x.s.broadcastLock
  {
    hide TimedInv, Hopeless, Start, Next;
    var t := turn.t;
    NobodyExpires(x, t);
    if turn.call == Continue && t in x.expired && PcOf(x, t) == WUncount {
      HopelessGiveUp(x, t);
    } else if x.s.pc[t] == Idle {
      HopelessStart(x, t, turn.call);
    } else {
      HopelessNext(x, t);
    }
  }

  lemma NobodyExpires(x: Timed, t: Tid)
    requires TimedInv(x) && Hopeless(x)
    ensures PcOf(x, t) != WSemaphore
  {
    if PcOf(x, t) == WSemaphore { assert Hopeful(x, t); }
  }

  lemma HopelessGiveUp(x: Timed, t: Tid)
    requires TimedInv(x) && Hopeless(x) && t in x.expired && PcOf(x, t) == WUncount
    ensures Hopeless(Timed(To(x.s, t, WUnlockAgain(false)).(count := x.s.count - 1), x.expired - {t}))
  {
    var s' := To(x.s, t, WUnlockAgain(false)).(count := x.s.count - 1);
    PlainMove(x.s, t, s');
    forall u | Hopeful(x, u) ensures u == t { OnlyOneCounts(x.s, t, u); }
    NoneHopeful(x, Timed(s', x.expired - {t}), t);
  }

  lemma HopelessStart(x: Timed, t: Tid, call: Call)
    requires TimedInv(x) && Hopeless(x) && t in x.s.pc && x.s.pc[t] == Idle && Start(x.s, t, call).Some?
    ensures var s' := Start(x.s, t, call).value;
      Hopeless(Timed(s', x.expired)) && s'.broadcastLock == x.s.broadcastLock
  {
    hide LocksOk, Waker, Start, N, TokensOk;
    var s' := Start(x.s, t, call).value;
    StartFields(x.s, t, call);
    StartIs(x.s, t, call);
    OthersHopeless(x, Timed(s', x.expired), t);
  }

  /** A waker in that state waits for ever, whatever the threads do, and with it the lock that every later signal,
      broadcast
      and wait has to take. */
  lemma {:induction false} HopelessForEver(x: Timed, turns: seq<TimedTurn>)
    requires TimedInv(x) && Hopeless(x)
    ensures var x' := TimedRun(x, turns); Hopeless(x') && x'.s.broadcastLock == x.s.broadcastLock
    decreases |turns|
  {
    hide TimedInv, TimedStep, Hopeless;
    if turns != [] {
      if TimedStep(x, turns[0]).Some? {
        TimedStepOk(x, turns[0]);
        HopelessStays(x, turns[0]);
      }
      HopelessForEver(TimedAfter(x, turns[0]), turns[1..]);
    }
  }

  // ----- and otherwise not -----

  /** Still hopes, and need not lose hope by its next step. */
  predicate Promising(x: Timed, t: Tid) {
    Hopeful(x, t) && !LosesHope(x, t)
  }

  /** The waker waits, and somebody can still set the event. */
  ghost predicate Rescuable(x: Timed) {
    IsWaking(Waker(x.s)) && !Hopeless(x)
  }

  /** A step of one thread, after which less is to be done and hope is left. */
  ghost predicate Helps(x: Timed, t: Tid) {
    var n := TimedStep(x, TimedTurn(t, Continue, false));
    && n.Some? && Rescuable(n.value) && Left(n.value.s) < Left(x.s)
    && n.value.s.broadcastLock == x.s.broadcastLock && !InBroadcastLock(PcOf(x, t))
  }

  /** A step of a thread outside the broadcast lock */
  lemma Advance(x: Timed, t: Tid)
    requires TimedInv(x) && IsWaking(Waker(x.s)) && t in x.s.pc && Weight(x.s.pc[t]) > 0 && !InBroadcastLock(x.s.pc[t])
    requires Next(x.s, t).Some?
    ensures var n := TimedStep(x, TimedTurn(t, Continue, false));
      && n.Some? && Left(n.value.s) < Left(x.s) && n.value.s.broadcastLock == x.s.broadcastLock
      && Waker(n.value.s) == Waker(x.s) && t in n.value.s.pc && n.value.s.pc == x.s.pc[t := n.value.s.pc[t]]
      && n.value.s.isBroadcast == x.s.isBroadcast && (x.s.pc[t] != WUncount ==> n.value.s.count == x.s.count)
      && n.value.expired == (if t in x.expired && x.s.pc[t] == WUncount then x.expired - {t} else x.expired)
      && (x.s.event ==> n.value.s.event)
  {
    hide LocksOk, Left, N, TokensOk;
    var s := x.s;
    if t in x.expired && s.pc[t] == WUncount {
      var s' := To(s, t, WUnlockAgain(false)).(count := s.count - 1);
      LeftStep(s, t, WUnlockAgain(false));
      SameLeft(To(s, t, WUnlockAgain(false)), s');
      PlainMove(s, t, s');
    } else {
      WeightOutside(s, t);
      WakerStep(s, t, Next(s, t).value);
      SameLock(s, t);
      Goes(s, t);
    }
  }

  lemma SameLeft(s: State, s': State)
    requires s'.pc == s.pc
    ensures Left(s') == Left(s)
  {
  }

  lemma WeightOutside(s: State, t: Tid)
    requires t in s.pc && Weight(s.pc[t]) > 0 && !InBroadcastLock(s.pc[t]) && Next(s, t).Some?
    ensures var s' := Next(s, t).value;
      t in s'.pc && !InBroadcastLock(s'.pc[t]) && s.pc[t] != Idle && (s.event ==> s'.event)
  {
  }

  /** Somebody else who hopes keeps hoping. */
  lemma OtherHopes(x: Timed, t: Tid, u: Tid)
    requires TimedInv(x) && Rescuable(x) && t in x.s.pc && Weight(x.s.pc[t]) > 0 && !InBroadcastLock(x.s.pc[t])
    requires Next(x.s, t).Some? && u != t && Hopeful(x, u) && x.s.pc[u] != WUncount
    ensures Helps(x, t)
  {
    hide TimedInv, Left, Next, Weight, IsCounted;
    Advance(x, t);
    var x' := TimedStep(x, TimedTurn(t, Continue, false)).value;
    assert Hopeful(x', u) && !LosesHope(x', u);
  }

  /** The thread itself */
  lemma SelfHopes(x: Timed, t: Tid)
    requires TimedInv(x) && Rescuable(x) && t in x.s.pc && Weight(x.s.pc[t]) > 0 && !InBroadcastLock(x.s.pc[t])
    requires Next(x.s, t).Some? && (Promising(x, t) || WillSet(x, t))
    requires x.s.pc[t] == WLockAgain && x.s.isBroadcast ==> x.s.count == 1
    ensures Helps(x, t)
  {
    hide TimedInv, Left, Next, Weight;
    Advance(x, t);
    SelfStep(x, t);
  }

  lemma SelfStep(x: Timed, t: Tid)
    requires t in x.s.pc && Weight(x.s.pc[t]) > 0 && !InBroadcastLock(x.s.pc[t])
    requires Next(x.s, t).Some? && (Promising(x, t) || WillSet(x, t))
    requires x.s.pc[t] == WLockAgain && x.s.isBroadcast ==> x.s.count == 1
    ensures var x' := TimedStep(x, TimedTurn(t, Continue, false)).value;
      x'.s.event || WillSet(x', t) || Promising(x', t)
  {
  }

  /** What a counted thread outside the broadcast lock is doing */
  lemma CountedPlaces(x: Timed, t: Tid)
    requires TimedInv(x) && t in x.s.pc && x.s.broadcastLock != Some(t)
    ensures IsCounted(x.s.pc[t]) ==> Waiting(x.s.pc[t]) || HasToken(x.s.pc[t])
    ensures IsCounted(x.s.pc[t]) ==> Weight(x.s.pc[t]) > 0 && !InBroadcastLock(x.s.pc[t])
    ensures InCountLock(x.s.pc[t]) ==> x.s.pc[t] == WUncount || x.s.pc[t].WUnlockAgain?
    ensures InCountLock(x.s.pc[t]) ==> Weight(x.s.pc[t]) > 0 && !InBroadcastLock(x.s.pc[t]) && Next(x.s, t).Some?
    ensures x.s.pc[t] == WLockAgain && x.s.countLock == None ==> Next(x.s, t).Some?
    ensures x.s.pc[t] == WUncount ==> x.s.countLock == Some(t)
  {
  }

  lemma WakerPlace(x: Timed)
    requires TimedInv(x) && IsWaking(Waker(x.s)) && !Waker(x.s).BUnlockCount?
    ensures x.s.broadcastLock.Some? && x.s.broadcastLock.value in x.s.pc
    ensures var w := x.s.broadcastLock.value;
        x.s.pc[w] == Waker(x.s) && !IsCounted(x.s.pc[w]) && !InCountLock(x.s.pc[w])
  {
  }

  lemma LockHolder(x: Timed)
    requires TimedInv(x) && x.s.countLock.Some?
    ensures x.s.countLock.value in x.s.pc && InCountLock(x.s.pc[x.s.countLock.value])
  {
  }

  lemma FindHelp(x: Timed) returns (t: Tid)
    requires TimedInv(x) && Rescuable(x) && !x.s.event && !Waker(x.s).BUnlockCount?
    ensures Helps(x, t)
  {
    hide TimedInv, Helps, Waker, IsCounted, InCountLock, Next, Weight, InBroadcastLock;
    WakerPlace(x);
    if u :| WillSet(x, u) {
      t := u;
      LastGoes(x, u);
      SelfHopes(x, u);
    } else {
      var t0 := FindPromising(x);
      CountedPlaces(x, t0);
      if x.s.countLock.Some? {
        t := x.s.countLock.value;
        LockHolder(x);
        CountedPlaces(x, t);
        if t == t0 { SelfHopes(x, t); } else { OtherHopes(x, t, t0); }
      } else {
        t := FindUnlocked(x, t0);
      }
    }
  }

  lemma LastGoes(x: Timed, u: Tid)
    requires WillSet(x, u)
    ensures Weight(x.s.pc[u]) > 0 && !InBroadcastLock(x.s.pc[u]) && Next(x.s, u).Some?
  {
  }

  lemma FindPromising(x: Timed) returns (t: Tid)
    requires TimedInv(x) && Rescuable(x) && !x.s.event && forall u :: !WillSet(x, u)
    requires x.s.broadcastLock.Some? && x.s.broadcastLock.value in x.s.pc && !IsCounted(x.s.pc[x.s.broadcastLock.value])
    ensures Promising(x, t) && x.s.broadcastLock != Some(t)
  {
    if forall u :: !Promising(x, u) {
      forall u | Hopeful(x, u) ensures LosesHope(x, u) { assert !Promising(x, u); }
      assert Hopeless(x);
    }
    t :| Promising(x, t);
  }

  /** Nobody holds the lock of the count. */
  lemma FindUnlocked(x: Timed, t0: Tid) returns (t: Tid)
    requires TimedInv(x) && Rescuable(x) && !x.s.event && IsWaking(Waker(x.s)) && !Waker(x.s).BUnlockCount?
    requires Promising(x, t0) && x.s.countLock == None && (forall u :: !WillSet(x, u))
    requires x.s.broadcastLock.Some? && x.s.broadcastLock.value in x.s.pc && !IsCounted(x.s.pc[x.s.broadcastLock.value])
    ensures Helps(x, t)
  {
    hide TimedInv, Helps, Waker, IsCounted, InCountLock, Next, Weight, InBroadcastLock;
    CountedPlaces(x, t0);
    if e :| e in x.expired {
      t := e;
      ExpiredPlace(x, e);
      CountedPlaces(x, e);
      OtherHopes(x, e, t0);
    } else if h :| Holder(x, h) {
      t := h;
      HolderHelps(x, h);
    } else {
      t := t0;
      assert !Holder(x, t0);
      TokenLeft(x, t0);
      SelfHopes(x, t0);
    }
  }

  lemma ExpiredPlace(x: Timed, e: Tid)
    requires TimedInv(x) && e in x.expired
    ensures e in x.s.pc && HasToken(x.s.pc[e]) && IsCounted(x.s.pc[e])
  {
  }

  /** The only one left, or one of several, has a token. */
  lemma HolderHelps(x: Timed, h: Tid)
    requires TimedInv(x) && Rescuable(x) && x.expired == {} && Holder(x, h) && x.s.countLock == None
    requires x.s.broadcastLock.Some? && x.s.broadcastLock.value in x.s.pc && !IsCounted(x.s.pc[x.s.broadcastLock.value])
    ensures Helps(x, h)
  {
    hide TimedInv, Helps, Waker, InCountLock, Next, Weight, InBroadcastLock;
    CountedPlaces(x, h);
    if x.s.isBroadcast && x.s.count != 1 {
      var u := Another(x, h);
      CountedPlaces(x, u);
      OtherHopes(x, h, u);
    } else {
      SelfHopes(x, h);
    }
  }

  lemma Another(x: Timed, h: Tid) returns (u: Tid)
    requires TimedInv(x) && h in x.s.pc && IsCounted(x.s.pc[h]) && x.s.count != 1
    ensures u != h && u in x.s.pc && IsCounted(x.s.pc[u])
  {
    var c := Those(x.s.pc, IsCounted);
    assert h in c && |c| != 1;
    assert c == {h} + (c - {h}) && |c| == 1 + |c - {h}|;
    u :| u in c - {h};
  }

  /** Nobody has a token, so there is one for whoever waits. */
  lemma TokenLeft(x: Timed, t: Tid)
    requires TimedInv(x) && IsWaking(Waker(x.s)) && !Waker(x.s).BUnlockCount? && !x.s.event
    requires t in x.s.pc && Waiting(x.s.pc[t]) && forall u :: !Holder(x, u) && !WillSet(x, u)
    ensures Next(x.s, t).Some?
  {
    hide LocksOk, Holder, WillSet;
    assert t in Those(x.s.pc, Waiting);
  }

  /** A broadcast lets go of the lock of the count before it waits. */
  lemma UnlockHelps(x: Timed)
    requires TimedInv(x) && Rescuable(x) && Waker(x.s).BUnlockCount?
    ensures x.s.broadcastLock.Some?
    ensures var n := TimedStep(x, TimedTurn(x.s.broadcastLock.value, Continue, false));
      n.Some? && Rescuable(n.value) && Left(n.value.s) < Left(x.s) && n.value.s.broadcastLock == x.s.broadcastLock
  {
    hide LocksOk, N, Left, TokensOk, Next, Weight, Hopeless;
    var w := x.s.broadcastLock.value;
    BroadcastUnlocks(x.s, w);
    Goes(x.s, w);
    var x1 := Timed(To(x.s, w, BWait).(countLock := None), x.expired);
    BroadcastTurn(x, w);
    if Hopeless(x1) { HopelessBefore(x, x1, w); }
  }

  lemma HopelessBefore(x: Timed, x1: Timed, w: Tid)
    requires w in x.s.pc && x.s.pc[w] == BUnlockCount && IsWaking(Waker(x.s)) && Hopeless(x1)
    requires x1 == Timed(To(x.s, w, BWait).(countLock := None), x.expired)
    ensures Hopeless(x)
  {
    hide Waker;
    assert x.s.pc == x1.s.pc[w := x.s.pc[w]];
    OthersHopeless(x1, x, w);
  }

  lemma BroadcastTurn(x: Timed, w: Tid)
    requires w in x.s.pc && x.s.pc[w] == BUnlockCount && Next(x.s, w).Some?
    ensures TimedStep(x, TimedTurn(w, Continue, false)) == Some(Timed(Next(x.s, w).value, x.expired))
  {
    hide Next;
  }

  lemma BroadcastUnlocks(s: State, w: Tid)
    requires w in s.pc && s.pc[w] == BUnlockCount && s.broadcastLock == Some(w)
    ensures Weight(s.pc[w]) > 0 && Next(s, w) == Some(To(s, w, BWait).(countLock := None))
    ensures Waker(Next(s, w).value) == BWait
  {
  }

  lemma EventGoes(x: Timed)
    requires TimedInv(x) && IsWaking(Waker(x.s)) && !Waker(x.s).BUnlockCount? && x.s.event
    ensures x.s.broadcastLock.Some?
    ensures var w := x.s.broadcastLock.value;
      var n := TimedStep(x, TimedTurn(w, Continue, false));
      w in x.s.pc && n.Some? && n.value.s.pc == x.s.pc[w := if x.s.pc[w] == SWait then SUnlockBroadcast else BDone]
  {
  }

  lemma Ahead(x: Timed, turn: TimedTurn, more: seq<TimedTurn>)
    requires TimedStep(x, turn).Some?
    ensures TimedRun(x, [turn] + more) == TimedRun(TimedStep(x, turn).value, more)
  {
    hide TimedStep;
    assert ([turn] + more)[1..] == more;
  }

  lemma NothingAhead(x: Timed)
    ensures TimedRun(x, []) == x
  {
  }

  /** While somebody can still set the event, there are steps, at most one more than are left to do, after which the
      waker
      has gone on. */
  lemma {:induction false} WakerRescued(x: Timed) returns (turns: seq<TimedTurn>)
    requires TimedInv(x) && Rescuable(x)
    ensures |turns| <= Left(x.s) + 1
    ensures var x' := TimedRun(x, turns);
      && x.s.broadcastLock.Some? && x.s.broadcastLock.value in x'.s.pc
      && !IsWaking(x'.s.pc[x.s.broadcastLock.value])
    decreases Left(x.s)
  {
    hide TimedInv, TimedStep, Left, Hopeless, TimedRun;
    assert IsWaking(Waker(x.s));
    if x.s.event && !Waker(x.s).BUnlockCount? {
      EventGoes(x);
      var turn := TimedTurn(x.s.broadcastLock.value, Continue, false);
      turns := [turn];
      assert [turn] + [] == [turn];
      Ahead(x, turn, []);
      NothingAhead(TimedStep(x, turn).value);
    } else {
      var turn;
      if Waker(x.s).BUnlockCount? {
        UnlockHelps(x);
        turn := TimedTurn(x.s.broadcastLock.value, Continue, false);
      } else {
        var t := FindHelp(x);
        turn := TimedTurn(t, Continue, false);
      }
      TimedStepOk(x, turn);
      var more := WakerRescued(TimedStep(x, turn).value);
      turns := [turn] + more;
      Ahead(x, turn, more);
    }
  }

  /** Exactly when a signal or broadcast that waits can still come to its end. */
  lemma HopelessExact(x: Timed)
    requires TimedInv(x) && IsWaking(Waker(x.s)) && x.s.broadcastLock.Some?
    ensures Hopeless(x) <==> forall turns :: IsWaking(PcOf(TimedRun(x, turns), x.s.broadcastLock.value))
  {
    if Hopeless(x) {
      forall turns ensures IsWaking(PcOf(TimedRun(x, turns), x.s.broadcastLock.value)) {
        HopelessForEver(x, turns);
      }
    } else {
      var turns := WakerRescued(x);
      assert !IsWaking(PcOf(TimedRun(x, turns), x.s.broadcastLock.value));
    }
  }

  /** The same in every run of a new condition variable. */
  lemma EveryHopeless(threads: set<Tid>, before: seq<TimedTurn>)
    requires IsWaking(Waker(TimedRun(TimedStart(threads), before).s))
    ensures var x := TimedRun(TimedStart(threads), before);
      x.s.broadcastLock.Some?
      && (Hopeless(x) <==> forall turns :: IsWaking(PcOf(TimedRun(x, turns), x.s.broadcastLock.value)))
  {
    hide TimedInv, Hopeless, TimedRun;
    TimedStartOk(threads);
    TimedRunOk(TimedStart(threads), before);
    HopelessExact(TimedRun(TimedStart(threads), before));
  }

  // ----- a signal that hangs -----

  /** Two threads: where they are, the locks, the semaphore, the count, and who was registered at the look. */
  function Two(p: Pc, q: Pc, b: Option<Tid>, c: Option<Tid>, m: Option<Tid>, sem: nat, count: int,
               seen: set<Tid>): State
  {
    State(map[0 := p, 1 := q], b, c, m, sem, false, count, false, seen, {}, 0)
  }

  lemma Then(x0: Timed, turns: seq<TimedTurn>, x: Timed, t: Tid, call: Call, timeout: bool, x': Timed)
      returns (turns': seq<TimedTurn>)
    requires TimedRun(x0, turns) == x && TimedAfter(x, TimedTurn(t, call, timeout)) == x'
    ensures turns' == turns + [TimedTurn(t, call, timeout)] && TimedRun(x0, turns') == x'
  {
    turns' := turns + [TimedTurn(t, call, timeout)];
    RunMore(x0, turns, TimedTurn(t, call, timeout));
  }

  lemma {:induction false} RunMore(x: Timed, turns: seq<TimedTurn>, turn: TimedTurn)
    ensures TimedRun(x, turns + [turn]) == TimedAfter(TimedRun(x, turns), turn)
    decreases |turns|
  {
    hide TimedAfter;
    if turns == [] {
      assert turns + [turn] == [turn];
    } else {
      assert (turns + [turn])[1..] == turns[1..] + [turn];
      RunMore(TimedAfter(x, turns[0]), turns[1..], turn);
    }
  }

  /** The first thread registers and waits for a token. */
  lemma FirstWaits() returns (turns: seq<TimedTurn>)
    ensures TimedRun(TimedStart({0, 1}), turns) == Timed(Two(WSemaphore, Idle, None, None, None, 0, 1, {}), {})
  {
    hide TimedRun, Two, TimedAfter;
    StartsWithTwo();
    turns := FirstCalls(TimedStart({0, 1}));
    turns := FirstCounts(TimedStart({0, 1}), turns);
    turns := FirstLeaves(TimedStart({0, 1}), turns);
  }

  lemma FirstCalls(x0: Timed) returns (turns: seq<TimedTurn>)
    requires x0 == Timed(Two(Idle, Idle, None, None, None, 0, 0, {}), {}) && TimedRun(x0, []) == x0
    ensures TimedRun(x0, turns) == Timed(Two(WLockCount, Idle, Some(0), None, Some(0), 0, 0, {}), {})
  {
    hide TimedRun;
    var x1 := Timed(Two(Idle, Idle, None, None, Some(0), 0, 0, {}), {});
    var x2 := Timed(Two(WLockBroadcast, Idle, None, None, Some(0), 0, 0, {}), {});
    var x3 := Timed(Two(WLockCount, Idle, Some(0), None, Some(0), 0, 0, {}), {});
    turns := Then(x0, [], x0, 0, LockMutex, false, x1);
    turns := Then(x0, turns, x1, 0, Wait, false, x2);
    turns := Then(x0, turns, x2, 0, Continue, false, x3);
  }

  lemma FirstCounts(x0: Timed, before: seq<TimedTurn>) returns (turns: seq<TimedTurn>)
    requires TimedRun(x0, before) == Timed(Two(WLockCount, Idle, Some(0), None, Some(0), 0, 0, {}), {})
    ensures TimedRun(x0, turns) == Timed(Two(WUnlockBroadcast, Idle, Some(0), None, Some(0), 0, 1, {}), {})
  {
    hide TimedRun;
    var x3 := TimedRun(x0, before);
    var x4 := Timed(Two(WCount, Idle, Some(0), Some(0), Some(0), 0, 0, {}), {});
    var x5 := Timed(Two(WUnlockCount, Idle, Some(0), Some(0), Some(0), 0, 1, {}), {});
    var x6 := Timed(Two(WUnlockBroadcast, Idle, Some(0), None, Some(0), 0, 1, {}), {});
    turns := Then(x0, before, x3, 0, Continue, false, x4);
    turns := Then(x0, turns, x4, 0, Continue, false, x5);
    turns := Then(x0, turns, x5, 0, Continue, false, x6);
  }

  lemma FirstLeaves(x0: Timed, before: seq<TimedTurn>) returns (turns: seq<TimedTurn>)
    requires TimedRun(x0, before) == Timed(Two(WUnlockBroadcast, Idle, Some(0), None, Some(0), 0, 1, {}), {})
    ensures TimedRun(x0, turns) == Timed(Two(WSemaphore, Idle, None, None, None, 0, 1, {}), {})
  {
    hide TimedRun;
    var x6 := TimedRun(x0, before);
    var x7 := Timed(Two(WUnlockMutex, Idle, None, None, Some(0), 0, 1, {}), {});
    var x8 := Timed(Two(WSemaphore, Idle, None, None, None, 0, 1, {}), {});
    turns := Then(x0, before, x6, 0, Continue, false, x7);
    turns := Then(x0, turns, x7, 0, Continue, false, x8);
  }

  lemma StartsWithTwo()
    ensures TimedStart({0, 1}) == Timed(Two(Idle, Idle, None, None, None, 0, 0, {}), {})
    ensures TimedRun(TimedStart({0, 1}), []) == TimedStart({0, 1})
  {
    assert Initial({0, 1}).pc == map[0 := Idle, 1 := Idle];
  }

  /** A signal counts one waiter, whose time runs out before the token is there: the signal waits for ever. */
  lemma SignalHangs() returns (turns: seq<TimedTurn>)
    ensures var x := TimedRun(TimedStart({0, 1}), turns); PcOf(x, 1) == SWait && x.s.targets == {0} && Hopeless(x)
    ensures var x := TimedRun(TimedStart({0, 1}), turns);
      forall more :: IsWaking(PcOf(TimedRun(x, more), 1)) && TimedRun(x, more).s.broadcastLock == Some(1)
  {
    hide TimedRun, Hopeless, TimedInv;
    var x0 := TimedStart({0, 1});
    turns := FirstWaits();
    turns := SignalCalls(x0, turns);
    turns := SignalSees(x0, turns);
    turns := SignalReleases(x0, turns);
    var last := TimedRun(x0, turns);
    TimedStartOk({0, 1});
    TimedRunOk(x0, turns);
    HangingState(last);
    forall more
      ensures IsWaking(PcOf(TimedRun(last, more), 1)) && TimedRun(last, more).s.broadcastLock == Some(1)
    {
      HopelessForEver(last, more);
      StillThere(TimedRun(last, more));
    }
  }

  lemma StillThere(x: Timed)
    requires Hopeless(x) && x.s.broadcastLock == Some(1)
    ensures IsWaking(PcOf(x, 1))
  {
  }

  lemma HangingState(x: Timed)
    requires x == Timed(Two(WLockAgain, SWait, Some(1), None, None, 1, 1, {0}), {0})
    ensures Hopeless(x)
  {
    forall t ensures !WillSet(x, t) && !Hopeful(x, t) { }
  }

  lemma SignalCalls(x0: Timed, before: seq<TimedTurn>) returns (turns: seq<TimedTurn>)
    requires TimedRun(x0, before) == Timed(Two(WSemaphore, Idle, None, None, None, 0, 1, {}), {})
    ensures TimedRun(x0, turns) == Timed(Two(WSemaphore, SLockCount, Some(1), None, None, 0, 1, {}), {})
  {
    hide TimedRun;
    var x := TimedRun(x0, before);
    var x1 := Timed(Two(WSemaphore, SLockBroadcast, None, None, None, 0, 1, {}), {});
    var x2 := Timed(Two(WSemaphore, SLockCount, Some(1), None, None, 0, 1, {}), {});
    turns := Then(x0, before, x, 1, Signal, false, x1);
    turns := Then(x0, turns, x1, 1, Continue, false, x2);
  }

  /** The signal looks and counts the waiter. */
  lemma SignalSees(x0: Timed, before: seq<TimedTurn>) returns (turns: seq<TimedTurn>)
    requires TimedRun(x0, before) == Timed(Two(WSemaphore, SLockCount, Some(1), None, None, 0, 1, {}), {})
    ensures TimedRun(x0, turns) == Timed(Two(WSemaphore, SUnlockCount(true), Some(1), Some(1), None, 0, 1, {0}), {})
  {
    hide TimedRun;
    var x2 := TimedRun(x0, before);
    var x3 := Timed(Two(WSemaphore, SLook, Some(1), Some(1), None, 0, 1, {}), {});
    var x4 := Timed(Two(WSemaphore, SUnlockCount(true), Some(1), Some(1), None, 0, 1, {0}), {});
    assert Registered(x3.s) == {0};
    turns := Then(x0, before, x2, 1, Continue, false, x3);
    turns := Then(x0, turns, x3, 1, Continue, false, x4);
  }

  /** The time of the waiter runs out, and only then the token is released. */
  lemma SignalReleases(x0: Timed, before: seq<TimedTurn>) returns (turns: seq<TimedTurn>)
    requires TimedRun(x0, before) == Timed(Two(WSemaphore, SUnlockCount(true), Some(1), Some(1), None, 0, 1, {0}), {})
    ensures TimedRun(x0, turns) == Timed(Two(WLockAgain, SWait, Some(1), None, None, 1, 1, {0}), {0})
  {
    hide TimedRun;
    var x4 := TimedRun(x0, before);
    var x5 := Timed(Two(WSemaphore, SRelease(true), Some(1), None, None, 0, 1, {0}), {});
    var x6 := Timed(Two(WLockAgain, SRelease(true), Some(1), None, None, 0, 1, {0}), {0});
    var x7 := Timed(Two(WLockAgain, SWait, Some(1), None, None, 1, 1, {0}), {0});
    turns := Then(x0, before, x4, 1, Continue, false, x5);
    turns := Then(x0, turns, x5, 0, Continue, true, x6);
    turns := Then(x0, turns, x6, 1, Continue, false, x7);
  }
}

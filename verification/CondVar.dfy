/** The emulated condition variable: any number of threads take the steps of `asc_cond_signal`,
    `asc_cond_broadcast` and the untimed wait in any order. */
module CondVar {
  import opened Basics

  type Tid = nat

  /** Where a thread is. `W`: in a wait, `S`: in a signal, `B`: in a broadcast, each named for what it does next.
      `have` and `last` are the local variables of the same names. */
  datatype Pc =
    | Idle
    | WLockBroadcast | WLockCount | WCount | WUnlockCount | WUnlockBroadcast | WUnlockMutex
    | WSemaphore | WLockAgain | WUncount | WUnlockAgain(last: bool) | WEvent(last: bool) | WLockMutex
    | SLockBroadcast | SLockCount | SLook | SUnlockCount(have: bool) | SRelease(have: bool) | SWait | SUnlockBroadcast
    | BLockBroadcast | BLockCount | BLook | BRelease | BUnlockCount | BWait | BDone | BNobody | BUnlockBroadcast

  /** `mutex` is the lock of the caller. `targets`, `taken` and `sets` record, for the last signal or broadcast, who was
      registered when it looked, who took a token since, and how often the event was set since. */
  datatype State = State(
    pc: map<Tid, Pc>, broadcastLock: Option<Tid>, countLock: Option<Tid>, mutex: Option<Tid>,
    sem: nat, event: bool, count: int, isBroadcast: bool,
    targets: set<Tid>, taken: set<Tid>, sets: nat)

  // ----- steps -----

  datatype Call = LockMutex | UnlockMutex | Wait | Signal | Broadcast | Continue

  function At(s: State, t: Tid): Pc {
    if t in s.pc then s.pc[t] else Idle
  }

  function To(s: State, t: Tid, p: Pc): State {
    s.(pc := s.pc[t := p])
  }

  /** The step that a thread takes: an idle one makes a call, any other goes on. A thread that cannot get a
      lock, a token or the event takes none. */
  function Step(s: State, t: Tid, call: Call): Option<State> {
    if t !in s.pc then None
    else if s.pc[t] == Idle then Start(s, t, call)
    else if call == Continue then Next(s, t) else None
  }

  /** A wait is called with the mutex locked. */
  function Start(s: State, t: Tid, call: Call): Option<State> {
    match call
    case LockMutex => if s.mutex == None then Some(s.(mutex := Some(t))) else None
    case UnlockMutex => if s.mutex == Some(t) then Some(s.(mutex := None)) else None
    case Wait => if s.mutex == Some(t) then Some(To(s, t, WLockBroadcast)) else None
    case Signal => Some(To(s, t, SLockBroadcast))
    case Broadcast => Some(To(s, t, BLockBroadcast))
    case Continue => None
  }

  function Registered(s: State): set<Tid> {
    set t | t in s.pc && IsCounted(s.pc[t])
  }

  /** The record starts anew. */
  function Look(s': State, s: State): State {
    s'.(targets := Registered(s), taken := {}, sets := 0)
  }

  predicate InSignal(p: Pc) {
    || p.SLockBroadcast? || p.SLockCount? || p.SLook? || p.SUnlockCount? || p.SRelease? || p.SWait?
    || p.SUnlockBroadcast?
  }

  predicate InBroadcastCall(p: Pc) {
    || p.BLockBroadcast? || p.BLockCount? || p.BLook? || p.BRelease? || p.BUnlockCount? || p.BWait? || p.BDone?
    || p.BNobody? || p.BUnlockBroadcast?
  }

  function Next(s: State, t: Tid): Option<State>
    requires t in s.pc
  {
    if InSignal(s.pc[t]) then NextSignal(s, t)
    else if InBroadcastCall(s.pc[t]) then NextBroadcast(s, t)
    else if BeforeUnlock(s.pc[t]) then NextEnter(s, t)
    else NextWait(s, t)
  }

  /** The steps of the untimed wait up to the release of the mutex */
  function NextEnter(s: State, t: Tid): Option<State>
    requires t in s.pc
  {
    match s.pc[t]
    case WLockBroadcast =>
        if s.broadcastLock == None then Some(To(s, t, WLockCount).(broadcastLock := Some(t))) else None
    case WLockCount => if s.countLock == None then Some(To(s, t, WCount).(countLock := Some(t))) else None
    case WCount => Some(To(s, t, WUnlockCount).(count := s.count + 1))
    case WUnlockCount => Some(To(s, t, WUnlockBroadcast).(countLock := None))
    case WUnlockBroadcast => Some(To(s, t, WUnlockMutex).(broadcastLock := None))
    case WUnlockMutex => Some(To(s, t, WSemaphore).(mutex := None))
    case _ => None
  }

  /** The other steps of the untimed wait */
  function NextWait(s: State, t: Tid): Option<State>
    requires t in s.pc
  {
    match s.pc[t]
    case WSemaphore => if s.sem > 0 then Some(To(s, t, WLockAgain).(sem := s.sem - 1, taken := s.taken + {t})) else None
    case WLockAgain => if s.countLock == None then Some(To(s, t, WUncount).(countLock := Some(t))) else None
    case WUncount => Some(To(s, t, WUnlockAgain(s.count - 1 == 0 || !s.isBroadcast)).(count := s.count - 1))
    case WUnlockAgain(last) => Some(To(s, t, WEvent(last)).(countLock := None))
    case WEvent(last) =>
        if last then Some(To(s, t, WLockMutex).(event := true, sets := s.sets + 1)) else Some(To(s, t, WLockMutex))
    case WLockMutex => if s.mutex == None then Some(To(s, t, Idle).(mutex := Some(t))) else None
    case _ => None
  }

  /** The steps of `asc_cond_signal` */
  function NextSignal(s: State, t: Tid): Option<State>
    requires t in s.pc
  {
    match s.pc[t]
    case SLockBroadcast =>
        if s.broadcastLock == None then Some(To(s, t, SLockCount).(broadcastLock := Some(t))) else None
    case SLockCount => if s.countLock == None then Some(To(s, t, SLook).(countLock := Some(t))) else None
    case SLook => Some(Look(To(s, t, SUnlockCount(s.count > 0)), s))
    case SUnlockCount(have) => Some(To(s, t, SRelease(have)).(countLock := None))
    case SRelease(have) =>
      if have then Some(To(s, t, SWait).(sem := s.sem + 1)) else Some(To(s, t, SUnlockBroadcast))
    case SWait => if s.event then Some(To(s, t, SUnlockBroadcast).(event := false)) else None
    case SUnlockBroadcast => Some(To(s, t, Idle).(broadcastLock := None))
    case _ => None
  }

  /** The steps of `asc_cond_broadcast` */
  function NextBroadcast(s: State, t: Tid): Option<State>
    requires t in s.pc
  {
    match s.pc[t]
    case BLockBroadcast =>
        if s.broadcastLock == None then Some(To(s, t, BLockCount).(broadcastLock := Some(t))) else None
    case BLockCount => if s.countLock == None then Some(To(s, t, BLook).(countLock := Some(t))) else None
    case BLook =>
      if s.count > 0 then Some(Look(To(s, t, BRelease).(isBroadcast := true), s))
      else Some(Look(To(s, t, BNobody), s))
    case BRelease => Some(To(s, t, BUnlockCount).(sem := s.sem + (if s.count > 0 then s.count else 0)))
    case BUnlockCount => Some(To(s, t, BWait).(countLock := None))
    case BWait => if s.event then Some(To(s, t, BDone).(event := false)) else None
    case BDone => Some(To(s, t, BUnlockBroadcast).(isBroadcast := false))
    case BNobody => Some(To(s, t, BUnlockBroadcast).(countLock := None))
    case BUnlockBroadcast => Some(To(s, t, Idle).(broadcastLock := None))
    case _ => None
  }

  // ----- counting threads -----

  function Those(pc: map<Tid, Pc>, p: Pc -> bool): set<Tid> {
    set t | t in pc && p(pc[t])
  }

  function N(s: State, p: Pc -> bool): nat {
    |Those(s.pc, p)|
  }

  lemma CountStep(pc: map<Tid, Pc>, t: Tid, b: Pc, p: Pc -> bool)
    requires t in pc
    ensures |Those(pc[t := b], p)| == |Those(pc, p)| - (if p(pc[t]) then 1 else 0) + (if p(b) then 1 else 0)
    ensures p(pc[t]) ==> |Those(pc, p)| > 0
  {
    var s, s' := Those(pc, p), Those(pc[t := b], p);
    if p(b) { assert s' == s + {t}; } else { assert s' == s - {t}; }
    if p(pc[t]) { assert t in s; }
  }

  /** Registered and not yet gone: the waiters that `waiter_count` counts. */
  predicate IsCounted(p: Pc) {
    p.WUnlockCount? || p.WUnlockBroadcast? || p.WUnlockMutex? || p.WSemaphore? || p.WLockAgain? || p.WUncount?
  }

  /** Has a token and is still counted. */
  predicate HasToken(p: Pc) { p.WLockAgain? || p.WUncount? }

  /** Will set the event. */
  predicate IsLast(p: Pc) { p == WUnlockAgain(true) || p == WEvent(true) }

  predicate Waiting(p: Pc) { p.WUnlockMutex? || p.WSemaphore? }

  predicate InBroadcastLock(p: Pc) {
    || p.WLockCount? || p.WCount? || p.WUnlockCount? || p.WUnlockBroadcast?
    || p.SLockCount? || p.SLook? || p.SUnlockCount? || p.SRelease? || p.SWait? || p.SUnlockBroadcast?
    || p.BLockCount? || p.BLook? || p.BRelease? || p.BUnlockCount? || p.BWait? || p.BDone? || p.BNobody? ||
        p.BUnlockBroadcast?
  }

  predicate InCountLock(p: Pc) {
    || p.WCount? || p.WUnlockCount? || p.WUncount? || p.WUnlockAgain?
    || p.SLook? || p.SUnlockCount? || p.BLook? || p.BRelease? || p.BUnlockCount? || p.BNobody?
  }

  predicate BeforeUnlock(p: Pc) {
    p.WLockBroadcast? || p.WLockCount? || p.WCount? || p.WUnlockCount? || p.WUnlockBroadcast? || p.WUnlockMutex?
  }

  // ----- the invariant -----

  ghost predicate LocksOk(s: State) {
    && (forall t :: t in s.pc ==> (InBroadcastLock(s.pc[t]) <==> s.broadcastLock == Some(t)))
    && (forall t :: t in s.pc ==> (InCountLock(s.pc[t]) <==> s.countLock == Some(t)))
    && (s.broadcastLock.Some? ==> s.broadcastLock.value in s.pc)
    && (s.countLock.Some? ==> s.countLock.value in s.pc)
    && (forall t :: t in s.pc && BeforeUnlock(s.pc[t]) ==> s.mutex == Some(t))
  }

  /** Nobody is being woken. */
  predicate Quiet(s: State) {
    s.sem == 0 && !s.event && N(s, HasToken) == 0 && N(s, IsLast) == 0
  }

  function Waker(s: State): Pc {
    if s.broadcastLock.Some? then At(s, s.broadcastLock.value) else Idle
  }

  function One(b: bool): nat { if b then 1 else 0 }

  predicate PhaseOk(s: State) {
    match Waker(s)
    case SUnlockCount(have) => Quiet(s) && !s.isBroadcast && (have ==> s.count > 0)
    case SRelease(have) => Quiet(s) && !s.isBroadcast && (have ==> s.count > 0)
    case SWait =>
        !s.isBroadcast && s.sem + N(s, HasToken) + N(s, IsLast) + One(s.event) == 1 && (s.sem > 0 ==> s.count > 0)
    case BRelease => Quiet(s) && s.isBroadcast && s.count > 0
    case BUnlockCount => InBroadcast(s)
    case BWait => InBroadcast(s)
    case BDone => Quiet(s) && s.isBroadcast && s.count == 0
    case _ => Quiet(s) && !s.isBroadcast
  }

  /** A token for each waiter that is still counted, and the event when there is none left. */
  predicate InBroadcast(s: State) {
    && s.isBroadcast && s.count == s.sem + N(s, HasToken)
    && N(s, IsLast) + One(s.event) == One(s.count == 0)
  }

  /** A signal or broadcast that has looked at the number of waiters. */
  predicate Looked(p: Pc) {
    || p.SUnlockCount? || p.SRelease? || p.SWait? || p.SUnlockBroadcast?
    || p.BRelease? || p.BUnlockCount? || p.BWait? || p.BDone? || p.BNobody? || p.BUnlockBroadcast?
  }

  /** Who still waits is who was registered at the look and has got no token since. */
  predicate HistoryOk(s: State) {
    Looked(Waker(s)) ==> s.taken <= s.targets && StillWaiting(s) && Progress(s, Waker(s))
  }

  predicate StillWaiting(s: State) {
    && (forall t :: t in s.targets && t !in s.taken ==> t in s.pc && Waiting(s.pc[t]))
    && (forall t :: t in s.pc && Waiting(s.pc[t]) ==> t in s.targets && t !in s.taken)
  }

  predicate Progress(s: State, w: Pc) {
    match w
    case SUnlockCount(have) => Untouched(s, have)
    case SRelease(have) => Untouched(s, have)
    case SWait => s.targets != {} && |s.taken| + s.sem == 1 && s.sets == One(s.event)
    case SUnlockBroadcast => |s.taken| == One(s.targets != {}) && s.sets == |s.taken|
    case BRelease => Untouched(s, true)
    case BUnlockCount => s.targets != {} && s.sets == One(s.event)
    case BWait => s.targets != {} && s.sets == One(s.event)
    case BDone => s.targets != {} && s.taken == s.targets && s.sets == 1
    case BNobody => Untouched(s, false)
    case BUnlockBroadcast => s.taken == s.targets && s.sets == One(s.targets != {})
    case _ => true
  }

  predicate Untouched(s: State, have: bool) {
    s.taken == {} && s.sets == 0 && (have <==> s.targets != {})
  }

  predicate IsWaking(p: Pc) { p.SWait? || p.BUnlockCount? || p.BWait? }

  ghost predicate Inv(s: State) {
    LocksOk(s) && s.count == N(s, IsCounted) && PhaseOk(s) && HistoryOk(s)
  }

  function Initial(threads: set<Tid>): State {
    State(map t | t in threads :: Idle, None, None, None, 0, false, 0, false, {}, {}, 0)
  }

  lemma InitialOk(threads: set<Tid>)
    ensures Inv(Initial(threads))
  {
    var s := Initial(threads);
    assert Those(s.pc, IsCounted) == {} && Those(s.pc, HasToken) == {} && Those(s.pc, IsLast) == {};
  }

  // ----- one step -----

  /** How a step changes the numbers. */
  lemma Counts(s: State, t: Tid, b: Pc)
    requires t in s.pc
    ensures var pc' := s.pc[t := b];
            && |Those(pc', IsCounted)| == N(s, IsCounted) - One(IsCounted(s.pc[t])) + One(IsCounted(b))
            && |Those(pc', HasToken)| == N(s, HasToken) - One(HasToken(s.pc[t])) + One(HasToken(b))
            && |Those(pc', IsLast)| == N(s, IsLast) - One(IsLast(s.pc[t])) + One(IsLast(b))
            && (HasToken(s.pc[t]) ==> N(s, HasToken) > 0) && (IsLast(s.pc[t]) ==> N(s, IsLast) > 0)
            && (IsCounted(s.pc[t]) ==> N(s, IsCounted) > 0)
  {
    CountStep(s.pc, t, b, IsCounted);
    CountStep(s.pc, t, b, HasToken);
    CountStep(s.pc, t, b, IsLast);
  }

  /** How a lock changes: whoever is inside holds it. */
  predicate Moves(l: Option<Tid>, l': Option<Tid>, t: Tid, inside: bool, inside': bool) {
    if inside then l' == (if inside' then l else None)
    else if inside' then l == None && l' == Some(t)
    else l' == l
  }

  /** How a step changes the locks. */
  predicate LocksMove(s: State, t: Tid, s': State)
    requires t in s.pc
  {
    BroadcastLockMoves(s, t, s') && CountLockMoves(s, t, s') && MutexMoves(s, t, s')
  }

  predicate BroadcastLockMoves(s: State, t: Tid, s': State)
    requires t in s.pc
  {
    && t in s'.pc && s'.pc == s.pc[t := s'.pc[t]]
    && Moves(s.broadcastLock, s'.broadcastLock, t, InBroadcastLock(s.pc[t]), InBroadcastLock(s'.pc[t]))
  }

  predicate CountLockMoves(s: State, t: Tid, s': State)
    requires t in s.pc
  {
    t in s'.pc && Moves(s.countLock, s'.countLock, t, InCountLock(s.pc[t]), InCountLock(s'.pc[t]))
  }

  predicate MutexMoves(s: State, t: Tid, s': State)
    requires t in s.pc
  {
    && t in s'.pc && (BeforeUnlock(s'.pc[t]) ==> BeforeUnlock(s.pc[t]) && s'.mutex == s.mutex)
    && (s'.mutex == s.mutex || BeforeUnlock(s.pc[t]) || s.mutex == None)
  }

  lemma NextLocks(s: State, t: Tid)
    requires t in s.pc && s.pc[t] != Idle && Next(s, t).Some?
    ensures LocksMove(s, t, Next(s, t).value)
  {
    hide BroadcastLockMoves, CountLockMoves, MutexMoves;
    if InSignal(s.pc[t]) {
      SignalLocks(s, t);
      SignalInside(s, t);
    } else if InBroadcastCall(s.pc[t]) {
      BroadcastLocks(s, t);
      BroadcastInside(s, t);
    } else if BeforeUnlock(s.pc[t]) {
      EnterLocks(s, t);
      EnterInside(s, t);
    } else {
      WaitLocks(s, t);
      WaitInside(s, t);
    }
  }

  lemma EnterLocks(s: State, t: Tid)
    requires t in s.pc && NextEnter(s, t).Some?
    ensures BroadcastLockMoves(s, t, NextEnter(s, t).value)
  {
  }

  lemma EnterInside(s: State, t: Tid)
    requires t in s.pc && NextEnter(s, t).Some?
    ensures var s' := NextEnter(s, t).value; CountLockMoves(s, t, s') && MutexMoves(s, t, s')
  {
  }

  lemma WaitLocks(s: State, t: Tid)
    requires t in s.pc && NextWait(s, t).Some?
    ensures BroadcastLockMoves(s, t, NextWait(s, t).value)
  {
  }

  lemma WaitInside(s: State, t: Tid)
    requires t in s.pc && NextWait(s, t).Some?
    ensures var s' := NextWait(s, t).value; CountLockMoves(s, t, s') && MutexMoves(s, t, s')
  {
  }

  lemma SignalLocks(s: State, t: Tid)
    requires t in s.pc && NextSignal(s, t).Some?
    ensures BroadcastLockMoves(s, t, NextSignal(s, t).value)
  {
  }

  lemma SignalInside(s: State, t: Tid)
    requires t in s.pc && NextSignal(s, t).Some?
    ensures var s' := NextSignal(s, t).value; CountLockMoves(s, t, s') && MutexMoves(s, t, s')
  {
    hide NextSignal, CountLockMoves, MutexMoves;
    SignalCountLock(s, t);
    SignalMutex(s, t);
  }

  lemma SignalCountLock(s: State, t: Tid)
    requires t in s.pc && NextSignal(s, t).Some?
    ensures CountLockMoves(s, t, NextSignal(s, t).value)
  {
  }

  lemma SignalMutex(s: State, t: Tid)
    requires t in s.pc && NextSignal(s, t).Some?
    ensures MutexMoves(s, t, NextSignal(s, t).value)
  {
  }

  lemma BroadcastLocks(s: State, t: Tid)
    requires t in s.pc && NextBroadcast(s, t).Some?
    ensures BroadcastLockMoves(s, t, NextBroadcast(s, t).value)
  {
  }

  lemma BroadcastInside(s: State, t: Tid)
    requires t in s.pc && NextBroadcast(s, t).Some?
    ensures var s' := NextBroadcast(s, t).value; CountLockMoves(s, t, s') && MutexMoves(s, t, s')
  {
    hide NextBroadcast, CountLockMoves, MutexMoves;
    BroadcastCountLock(s, t);
    BroadcastMutex(s, t);
  }

  lemma BroadcastCountLock(s: State, t: Tid)
    requires t in s.pc && NextBroadcast(s, t).Some?
    ensures CountLockMoves(s, t, NextBroadcast(s, t).value)
  {
  }

  lemma BroadcastMutex(s: State, t: Tid)
    requires t in s.pc && NextBroadcast(s, t).Some?
    ensures MutexMoves(s, t, NextBroadcast(s, t).value)
  {
  }

  lemma LocksStep(s: State, t: Tid, s': State)
    requires LocksOk(s) && t in s.pc && s.pc[t] != Idle && Next(s, t) == Some(s')
    ensures LocksOk(s')
  {
    hide Next, InBroadcastLock, InCountLock, BeforeUnlock;
    NextLocks(s, t);
    forall x | x in s'.pc
      ensures InBroadcastLock(s'.pc[x]) <==> s'.broadcastLock == Some(x)
      ensures InCountLock(s'.pc[x]) <==> s'.countLock == Some(x)
      ensures BeforeUnlock(s'.pc[x]) ==> s'.mutex == Some(x)
    {
      assert x in s.pc;
    }
  }

  /** Whoever is in the broadcast lock is the only one. */
  lemma OnlyWaker(s: State, t: Tid)
    requires LocksOk(s) && t in s.pc
    ensures InBroadcastLock(s.pc[t]) ==> Waker(s) == s.pc[t]
    ensures !InBroadcastLock(s.pc[t]) ==> s.broadcastLock != Some(t)
  {
  }

  lemma WakerStep(s: State, t: Tid, s': State)
    requires LocksOk(s) && t in s.pc && s.pc[t] != Idle && Next(s, t) == Some(s')
    ensures t in s'.pc && s'.pc == s.pc[t := s'.pc[t]]
    ensures LocksOk(s')
    ensures InBroadcastLock(s.pc[t]) ==>
        Waker(s) == s.pc[t] && Waker(s') == if InBroadcastLock(s'.pc[t]) then s'.pc[t] else Idle
    ensures !InBroadcastLock(s.pc[t]) && InBroadcastLock(s'.pc[t]) ==> Waker(s) == Idle && Waker(s') == s'.pc[t]
    ensures !InBroadcastLock(s.pc[t]) && !InBroadcastLock(s'.pc[t]) ==> Waker(s') == Waker(s)
  {
    LocksStep(s, t, s');
    NextLocks(s, t);
    BroadcastLockFacts(s, t);
    hide Next, InBroadcastLock, InCountLock, BeforeUnlock, LocksOk, Waker;
    WakerMoves(s, t, s', InBroadcastLock(s.pc[t]), InBroadcastLock(s'.pc[t]));
  }

  lemma BroadcastLockFacts(s: State, t: Tid)
    requires LocksOk(s) && t in s.pc
    ensures InBroadcastLock(s.pc[t]) <==> s.broadcastLock == Some(t)
  {
  }

  lemma WakerMoves(s: State, t: Tid, s': State, inside: bool, inside': bool)
    requires t in s.pc && t in s'.pc && s'.pc == s.pc[t := s'.pc[t]]
    requires Moves(s.broadcastLock, s'.broadcastLock, t, inside, inside') && (inside <==> s.broadcastLock == Some(t))
    ensures inside ==> Waker(s) == s.pc[t] && Waker(s') == if inside' then s'.pc[t] else Idle
    ensures !inside && inside' ==> Waker(s) == Idle && Waker(s') == s'.pc[t]
    ensures !inside && !inside' ==> Waker(s') == Waker(s)
  {
  }

  lemma PhaseStep(s: State, t: Tid, s': State)
    requires Inv(s) && t in s.pc && s.pc[t] != Idle && Next(s, t) == Some(s')
    ensures PhaseOk(s') && s'.count == N(s', IsCounted)
  {
    hide LocksOk, HistoryOk, Those, Next, PhaseOk, Waker, IsCounted, HasToken, IsLast, InBroadcastLock;
    WakerStep(s, t, s');
    Counts(s, t, s'.pc[t]);
    TokensCounted(s);
    if InBroadcastLock(s.pc[t]) || InBroadcastLock(s'.pc[t]) { InsidePhase(s, t, s'); } else { OutsidePhase(s, t, s'); }
  }

  /** The numbers after a step. */
  ghost predicate Counted(s: State, t: Tid, s': State)
    requires t in s.pc && t in s'.pc
  {
    && N(s', IsCounted) == N(s, IsCounted) - One(IsCounted(s.pc[t])) + One(IsCounted(s'.pc[t]))
    && N(s', HasToken) == N(s, HasToken) - One(HasToken(s.pc[t])) + One(HasToken(s'.pc[t]))
    && N(s', IsLast) == N(s, IsLast) - One(IsLast(s.pc[t])) + One(IsLast(s'.pc[t]))
    && (HasToken(s.pc[t]) ==> N(s, HasToken) > 0) && (IsLast(s.pc[t]) ==> N(s, IsLast) > 0)
    && (IsCounted(s.pc[t]) ==> N(s, IsCounted) > 0) && N(s, HasToken) <= N(s, IsCounted)
  }

  lemma InsidePhase(s: State, t: Tid, s': State)
    requires PhaseOk(s) && s.count == N(s, IsCounted) && t in s.pc && s.pc[t] != Idle && Next(s, t) == Some(s')
    requires t in s'.pc
    requires Counted(s, t, s') && (InBroadcastLock(s.pc[t]) || InBroadcastLock(s'.pc[t]))
    requires Waker(s) == (if InBroadcastLock(s.pc[t]) then s.pc[t] else Idle)
    requires Waker(s') == (if InBroadcastLock(s'.pc[t]) then s'.pc[t] else Idle)
    ensures PhaseOk(s') && s'.count == N(s', IsCounted)
  {
    hide PhaseOk;
    InsidePhaseOk(s, t, s');
    InsideCount(s, t, s');
  }

  lemma InsideCount(s: State, t: Tid, s': State)
    requires s.count == N(s, IsCounted) && t in s.pc && s.pc[t] != Idle && Next(s, t) == Some(s') && t in s'.pc
    requires PhaseOk(s) && Counted(s, t, s') && (InBroadcastLock(s.pc[t]) || InBroadcastLock(s'.pc[t]))
    requires Waker(s) == (if InBroadcastLock(s.pc[t]) then s.pc[t] else Idle)
    ensures s'.count == N(s', IsCounted)
  {
    hide N, Waker;
    match s.pc[t]
    case WLockBroadcast => case WLockCount => case WCount => case WUnlockCount => case WUnlockBroadcast =>
    case SLockBroadcast => case SLockCount => case SLook => case SUnlockCount(_) => case SRelease(_) => case SWait =>
        case SUnlockBroadcast =>
    case BLockBroadcast => case BLockCount => case BLook => case BRelease => case BUnlockCount => case BWait =>
        case BDone =>
    case BNobody => case BUnlockBroadcast =>
  }

  lemma InsidePhaseOk(s: State, t: Tid, s': State)
    requires PhaseOk(s) && s.count == N(s, IsCounted) && t in s.pc && s.pc[t] != Idle && Next(s, t) == Some(s')
    requires t in s'.pc
    requires Counted(s, t, s') && (InBroadcastLock(s.pc[t]) || InBroadcastLock(s'.pc[t]))
    requires Waker(s) == (if InBroadcastLock(s.pc[t]) then s.pc[t] else Idle)
    requires Waker(s') == (if InBroadcastLock(s'.pc[t]) then s'.pc[t] else Idle)
    ensures PhaseOk(s')
  {
    if Broadcasting(s.pc[t]) {
      InsideBroadcast(s, t, s');
    } else {
      InsideOther(s, t, s');
    }
  }

  predicate Broadcasting(pc: Pc) {
    || pc.BLockBroadcast? || pc.BLockCount? || pc.BLook? || pc.BRelease? || pc.BUnlockCount?
    || pc.BWait? || pc.BDone? || pc.BNobody? || pc.BUnlockBroadcast?
  }

  lemma InsideOther(s: State, t: Tid, s': State)
    requires PhaseOk(s) && s.count == N(s, IsCounted) && t in s.pc && s.pc[t] != Idle && Next(s, t) == Some(s')
    requires t in s'.pc
    requires Counted(s, t, s') && (InBroadcastLock(s.pc[t]) || InBroadcastLock(s'.pc[t])) && !Broadcasting(s.pc[t])
    requires Waker(s) == (if InBroadcastLock(s.pc[t]) then s.pc[t] else Idle)
    requires Waker(s') == (if InBroadcastLock(s'.pc[t]) then s'.pc[t] else Idle)
    ensures PhaseOk(s')
  {
    hide N, Waker;
    match s.pc[t]
    case WLockBroadcast => case WLockCount => case WCount => case WUnlockCount => case WUnlockBroadcast =>
    case SLockBroadcast => case SLockCount => case SLook => case SUnlockCount(_) => case SRelease(_) => case SWait =>
        case SUnlockBroadcast =>
  }

  lemma InsideBroadcast(s: State, t: Tid, s': State)
    requires PhaseOk(s) && s.count == N(s, IsCounted) && t in s.pc && s.pc[t] != Idle && Next(s, t) == Some(s')
    requires t in s'.pc
    requires Counted(s, t, s') && Broadcasting(s.pc[t])
    requires Waker(s) == (if InBroadcastLock(s.pc[t]) then s.pc[t] else Idle)
    requires Waker(s') == (if InBroadcastLock(s'.pc[t]) then s'.pc[t] else Idle)
    ensures PhaseOk(s')
  {
    hide N, Waker;
    match s.pc[t]
    case BLockBroadcast => case BLockCount => case BLook => case BRelease => case BUnlockCount => case BWait =>
        case BDone =>
    case BNobody => case BUnlockBroadcast =>
  }

  lemma OutsidePhase(s: State, t: Tid, s': State)
    requires PhaseOk(s) && s.count == N(s, IsCounted) && t in s.pc && s.pc[t] != Idle && Next(s, t) == Some(s')
    requires t in s'.pc
    requires Counted(s, t, s') && !InBroadcastLock(s.pc[t]) && !InBroadcastLock(s'.pc[t])
    requires Waker(s') == Waker(s)
    ensures PhaseOk(s') && s'.count == N(s', IsCounted)
  {
    hide N, Waker, PhaseOk;
    OutsidePhaseOk(s, t, s');
    OutsideCount(s, t, s');
  }

  lemma OutsideCount(s: State, t: Tid, s': State)
    requires s.count == N(s, IsCounted) && t in s.pc && s.pc[t] != Idle && Next(s, t) == Some(s') && t in s'.pc
    requires Counted(s, t, s') && !InBroadcastLock(s.pc[t]) && !InBroadcastLock(s'.pc[t])
    ensures s'.count == N(s', IsCounted)
  {
    hide N;
  }

  lemma OutsidePhaseOk(s: State, t: Tid, s': State)
    requires PhaseOk(s) && s.count == N(s, IsCounted) && t in s.pc && s.pc[t] != Idle && Next(s, t) == Some(s')
    requires t in s'.pc
    requires Counted(s, t, s') && !InBroadcastLock(s.pc[t]) && !InBroadcastLock(s'.pc[t])
    requires Waker(s') == Waker(s)
    ensures PhaseOk(s')
  {
    hide N, Waker;
    match s.pc[t]
    case WUnlockMutex =>
    case WSemaphore =>
    case WLockAgain =>
    case WUncount =>
    case WUnlockAgain(_) =>
    case WEvent(_) =>
    case WLockMutex =>
  }

  /** A thread with a token is counted. */
  lemma TokensCounted(s: State)
    ensures N(s, HasToken) <= N(s, IsCounted)
  {
    SubsetSize(Those(s.pc, HasToken), Those(s.pc, IsCounted));
  }

  lemma {:induction false} SubsetSize(a: set<Tid>, b: set<Tid>)
    requires a <= b
    ensures |a| <= |b|
    ensures |a| == |b| ==> a == b
  {
    if a != {} {
      var x :| x in a;
      SubsetSize(a - {x}, b - {x});
    }
  }

  lemma HistoryStep(s: State, t: Tid, s': State)
    requires Inv(s) && t in s.pc && s.pc[t] != Idle && Next(s, t) == Some(s')
    ensures HistoryOk(s')
  {
    WakerStep(s, t, s');
    OnlyWaker(s, t);
    PhaseFacts(s, t);
    if Looked(Waker(s')) {
      if s.pc[t].SLook? || s.pc[t].BLook? {
        AllWaiting(s, t);
        hide Inv, LocksOk, N, Waker, PhaseOk, IsCounted, Waiting;
        LookStep(s, t, s');
      } else if InBroadcastLock(s.pc[t]) {
        hide Inv, LocksOk, N, Waker, PhaseOk, InBroadcastLock, HistoryOk, Next;
        LookedBefore(s, t, s');
        WakerHistory(s, t, s');
      } else {
        hide Inv, LocksOk, N, Waker, PhaseOk, HistoryOk, Next;
        OtherHistory(s, t, s');
      }
    }
  }

  /** At the look, whoever is counted waits for a token. */
  lemma AllWaiting(s: State, t: Tid)
    requires Inv(s) && t in s.pc && (s.pc[t].SLook? || s.pc[t].BLook?)
    ensures forall x :: x in s.pc ==> (IsCounted(s.pc[x]) <==> Waiting(s.pc[x]))
    ensures s.count > 0 <==> Registered(s) != {}
  {
    OnlyWaker(s, t);
    assert Registered(s) == Those(s.pc, IsCounted);
    forall x | x in s.pc
      ensures IsCounted(s.pc[x]) <==> Waiting(s.pc[x])
    {
      assert HasToken(s.pc[x]) ==> x in Those(s.pc, HasToken);
    }
  }

  lemma LookStep(s: State, t: Tid, s': State)
    requires t in s.pc && (s.pc[t].SLook? || s.pc[t].BLook?) && Next(s, t) == Some(s') && t in s'.pc
    requires Waker(s') == s'.pc[t] && s'.pc == s.pc[t := s'.pc[t]]
    requires forall x :: x in s.pc ==> (IsCounted(s.pc[x]) <==> Waiting(s.pc[x]))
    requires s.count > 0 <==> Registered(s) != {}
    ensures HistoryOk(s')
  {
    hide Waker;
  }

  /** Only the look begins the record. */
  lemma LookedBefore(s: State, t: Tid, s': State)
    requires t in s.pc && t in s'.pc && Next(s, t) == Some(s') && Looked(s'.pc[t])
    ensures s.pc[t].SLook? || s.pc[t].BLook? || Looked(s.pc[t])
  {
    hide NextSignal, NextBroadcast, NextEnter, NextWait;
    if InSignal(s.pc[t]) {
      SignalLooked(s, t);
    } else if InBroadcastCall(s.pc[t]) {
      BroadcastLooked(s, t);
    } else {
      WaitNotLooked(s, t);
    }
  }

  lemma SignalLooked(s: State, t: Tid)
    requires t in s.pc && NextSignal(s, t).Some?
    ensures var s' := NextSignal(s, t).value; t in s'.pc && (Looked(s'.pc[t]) ==> s.pc[t].SLook? || Looked(s.pc[t]))
  {
  }

  lemma BroadcastLooked(s: State, t: Tid)
    requires t in s.pc && NextBroadcast(s, t).Some?
    ensures var s' := NextBroadcast(s, t).value; t in s'.pc && (Looked(s'.pc[t]) ==> s.pc[t].BLook? || Looked(s.pc[t]))
  {
  }

  lemma WaitNotLooked(s: State, t: Tid)
    requires t in s.pc
    ensures NextEnter(s, t).Some? ==> t in NextEnter(s, t).value.pc && !Looked(NextEnter(s, t).value.pc[t])
    ensures NextWait(s, t).Some? ==> t in NextWait(s, t).value.pc && !Looked(NextWait(s, t).value.pc[t])
  {
  }

  /** What the numbers say where the record is used. */
  lemma PhaseFacts(s: State, t: Tid)
    requires Inv(s) && t in s.pc
    ensures HistoryOk(s)
    ensures Looked(Waker(s)) && IsLast(s.pc[t]) ==> IsWaking(Waker(s)) && !s.event
    ensures Looked(Waker(s)) && !IsWaking(Waker(s)) ==> s.sem == 0 && !s.event
    ensures Waker(s).SWait? && s.event ==> s.sem == 0
    ensures Waker(s).BWait? && s.event ==> forall x :: x in s.pc ==> !Waiting(s.pc[x])
  {
    Counts(s, t, Idle);
    TokensCounted(s);
    if Waker(s).BWait? && s.event {
      forall x | x in s.pc ensures !Waiting(s.pc[x]) { assert x !in Those(s.pc, IsCounted); }
    }
  }

  /** The steps of the waker itself */
  lemma WakerHistory(s: State, t: Tid, s': State)
    requires t in s.pc && Looked(s.pc[t]) && Next(s, t) == Some(s') && t in s'.pc && s'.pc == s.pc[t := s'.pc[t]]
    requires Waker(s) == s.pc[t] && (Looked(Waker(s')) ==> Waker(s') == s'.pc[t]) && HistoryOk(s)
    requires (s.pc[t].SWait? && s.event) || !IsWaking(s.pc[t]) ==> s.sem == 0
    requires !IsWaking(s.pc[t]) ==> !s.event
    requires s.pc[t].BWait? && s.event ==> forall x :: x in s.pc ==> !Waiting(s.pc[x])
    ensures HistoryOk(s')
  {
    hide Waker, Next, HistoryOk, Looked, StillWaiting;
    WakerKeeps(s, t, s');
    LookedHistory(s);
    if s.pc[t].SRelease? || s.pc[t].SWait? || s.pc[t].SUnlockCount? || s.pc[t].SUnlockBroadcast? {
      SignalProgress(s, t, s');
    } else {
      if s.pc[t].BWait? { AllTaken(s); }
      BroadcastProgress(s, t, s');
    }
    SameWaiting(s, s', t);
  }

  lemma LookedHistory(s: State)
    requires HistoryOk(s) && Looked(Waker(s))
    ensures s.taken <= s.targets && StillWaiting(s) && Progress(s, Waker(s))
  {
  }

  lemma AllTaken(s: State)
    requires StillWaiting(s) && s.taken <= s.targets
    ensures s.event && (forall x :: x in s.pc ==> !Waiting(s.pc[x])) ==> s.taken == s.targets
  {
  }

  lemma WakerKeeps(s: State, t: Tid, s': State)
    requires t in s.pc && Looked(s.pc[t]) && Next(s, t) == Some(s') && t in s'.pc
    ensures s'.targets == s.targets && s'.taken == s.taken && s'.sets == s.sets
    ensures !Waiting(s.pc[t]) && !Waiting(s'.pc[t])
  {
  }

  lemma SameWaiting(s: State, s': State, t: Tid)
    requires t in s.pc && t in s'.pc && s'.pc == s.pc[t := s'.pc[t]] && !Waiting(s.pc[t]) && !Waiting(s'.pc[t])
    requires s'.targets == s.targets && s'.taken == s.taken && s.taken <= s.targets && StillWaiting(s)
    requires Looked(Waker(s')) ==> Progress(s', Waker(s'))
    ensures HistoryOk(s')
  {
    hide Waker, Waiting, Looked, Progress;
  }

  lemma SignalProgress(s: State, t: Tid, s': State)
    requires t in s.pc && Next(s, t) == Some(s') && t in s'.pc && Progress(s, s.pc[t])
    requires s.pc[t].SRelease? || s.pc[t].SWait? || s.pc[t].SUnlockCount? || s.pc[t].SUnlockBroadcast?
    requires (s.pc[t].SWait? && s.event) || !IsWaking(s.pc[t]) ==> s.sem == 0
    requires s.pc[t].SRelease? ==> !s.event
    ensures Looked(s'.pc[t]) ==> Progress(s', s'.pc[t])
  {
  }

  lemma BroadcastProgress(s: State, t: Tid, s': State)
    requires t in s.pc && Next(s, t) == Some(s') && t in s'.pc && Progress(s, s.pc[t]) && Looked(s.pc[t])
    requires !s.pc[t].SRelease? && !s.pc[t].SWait? && !s.pc[t].SUnlockCount? && !s.pc[t].SUnlockBroadcast?
    requires s.pc[t].BWait? && s.event ==> s.taken == s.targets
    requires s.pc[t].BRelease? ==> !s.event
    ensures Looked(s'.pc[t]) ==> Progress(s', s'.pc[t])
  {
  }

  /** The steps of the others */
  lemma OtherHistory(s: State, t: Tid, s': State)
    requires t in s.pc && s.pc[t] != Idle && Next(s, t) == Some(s') && t in s'.pc && s'.pc == s.pc[t := s'.pc[t]]
    requires !InBroadcastLock(s.pc[t]) && !InBroadcastLock(s'.pc[t]) && Waker(s') == Waker(s)
    requires Looked(Waker(s)) && HistoryOk(s)
    requires IsLast(s.pc[t]) ==> IsWaking(Waker(s)) && !s.event
    requires s.sem > 0 ==> IsWaking(Waker(s))
    ensures HistoryOk(s')
  {
    hide Waker;
    if s.pc[t].WSemaphore? {
      TakeStep(s, t, s');
    } else if s.pc[t].WEvent? {
      EventStep(s, t, s');
    } else {
      hide HistoryOk, StillWaiting, Progress;
      RestStep(s, t, s');
      SameHistory(s, s');
    }
  }

  lemma TakeStep(s: State, t: Tid, s': State)
    requires t in s.pc && s.pc[t].WSemaphore? && Next(s, t) == Some(s') && IsWaking(Waker(s)) && Waker(s') == Waker(s)
    requires HistoryOk(s)
    ensures HistoryOk(s')
  {
    hide Waker;
    assert t in s.targets && t !in s.taken;
    assert |s'.taken| == |s.taken| + 1;
  }

  lemma EventStep(s: State, t: Tid, s': State)
    requires t in s.pc && s.pc[t].WEvent? && Next(s, t) == Some(s') && Waker(s') == Waker(s)
    requires HistoryOk(s)
    requires IsLast(s.pc[t]) ==> IsWaking(Waker(s)) && !s.event
    ensures HistoryOk(s')
  {
    hide Waker;
  }

  /** What a step that does not concern the wake-up leaves alone. */
  predicate Unconcerned(s: State, s': State) {
    && s'.targets == s.targets && s'.taken == s.taken && s'.sets == s.sets && s'.sem == s.sem && s'.event == s.event
    && s'.pc.Keys == s.pc.Keys && forall x :: x in s.pc && x in s'.pc ==> (Waiting(s'.pc[x]) <==> Waiting(s.pc[x]))
  }

  lemma RestStep(s: State, t: Tid, s': State)
    requires t in s.pc && s.pc[t] != Idle && Next(s, t) == Some(s') && t in s'.pc && s'.pc == s.pc[t := s'.pc[t]]
    requires !InBroadcastLock(s.pc[t]) && !InBroadcastLock(s'.pc[t]) && !s.pc[t].WSemaphore? && !s.pc[t].WEvent?
    ensures Unconcerned(s, s')
  {
  }

  lemma SameHistory(s: State, s': State)
    requires Unconcerned(s, s') && HistoryOk(s) && Waker(s') == Waker(s)
    ensures HistoryOk(s')
  {
    hide Waker, Waiting;
  }

  /** Every step of every thread keeps the invariant. */
  lemma StepOk(s: State, t: Tid, call: Call)
    requires Inv(s) && Step(s, t, call).Some?
    ensures Inv(Step(s, t, call).value)
  {
    var s' := Step(s, t, call).value;
    if s.pc[t] == Idle {
      StartOk(s, t, call);
    } else {
      LocksStep(s, t, s');
      PhaseStep(s, t, s');
      HistoryStep(s, t, s');
    }
  }

  lemma StartOk(s: State, t: Tid, call: Call)
    requires Inv(s) && t in s.pc && s.pc[t] == Idle && Start(s, t, call).Some?
    ensures Inv(Start(s, t, call).value)
  {
    StartLocks(s, t, call);
    StartHistory(s, t, call);
    StartPhase(s, t, call);
    hide N, LocksOk, HistoryOk, PhaseOk, Waker;
  }

  lemma StartPhase(s: State, t: Tid, call: Call)
    requires s.count == N(s, IsCounted) && PhaseOk(s) && t in s.pc && s.pc[t] == Idle && Start(s, t, call).Some?
    requires Waker(Start(s, t, call).value) == Waker(s)
    ensures var s' := Start(s, t, call).value;
            PhaseOk(s') && s'.count == N(s', IsCounted)
  {
    var s' := Start(s, t, call).value;
    var b := s'.pc[t];
    assert s'.pc == s.pc[t := b] && !IsCounted(b) && !HasToken(b) && !IsLast(b);
    Counts(s, t, b);
    hide Those, Waker, Start, PhaseOk;
    SameNumbers(s, s') by { StartFields(s, t, call); }
  }

  lemma StartFields(s: State, t: Tid, call: Call)
    requires t in s.pc && s.pc[t] == Idle && Start(s, t, call).Some?
    ensures var s' := Start(s, t, call).value;
            && s'.sem == s.sem && s'.event == s.event && s'.count == s.count && s'.isBroadcast == s.isBroadcast
            && Unconcerned(s, s')
  {
  }

  lemma SameNumbers(s: State, s': State)
    requires PhaseOk(s) && Waker(s') == Waker(s)
    requires s'.sem == s.sem && s'.event == s.event && s'.count == s.count && s'.isBroadcast == s.isBroadcast
    requires N(s', HasToken) == N(s, HasToken) && N(s', IsLast) == N(s, IsLast)
    ensures PhaseOk(s')
  {
    hide N, Waker;
  }

  lemma StartHistory(s: State, t: Tid, call: Call)
    requires LocksOk(s) && HistoryOk(s) && t in s.pc && s.pc[t] == Idle && Start(s, t, call).Some?
    ensures HistoryOk(Start(s, t, call).value) && Waker(Start(s, t, call).value) == Waker(s)
  {
    var s' := Start(s, t, call).value;
    assert s.broadcastLock != Some(t);
    assert Waker(s') == Waker(s);
    StartFields(s, t, call);
    hide LocksOk, Waker, HistoryOk, Start;
    SameHistory(s, s');
  }

  lemma StartLocks(s: State, t: Tid, call: Call)
    requires LocksOk(s) && t in s.pc && s.pc[t] == Idle && Start(s, t, call).Some?
    ensures LocksOk(Start(s, t, call).value)
  {
    if call.LockMutex? || call.UnlockMutex? {
      StartMutex(s, t, call);
    } else {
      StartInside(s, t, call);
    }
  }

  lemma StartMutex(s: State, t: Tid, call: Call)
    requires LocksOk(s) && t in s.pc && s.pc[t] == Idle && Start(s, t, call).Some?
    requires (call.LockMutex? || call.UnlockMutex?)
    ensures LocksOk(Start(s, t, call).value)
  {
  }

  lemma StartInside(s: State, t: Tid, call: Call)
    requires LocksOk(s) && t in s.pc && s.pc[t] == Idle && Start(s, t, call).Some?
    requires (call.Wait? || call.Signal? || call.Broadcast?)
    ensures LocksOk(Start(s, t, call).value)
  {
    hide LocksOk;
    match call
    case Wait => EnterOk(s, t, WLockBroadcast);
    case Signal => EnterOk(s, t, SLockBroadcast);
    case Broadcast => EnterOk(s, t, BLockBroadcast);
    case _ =>
  }

  lemma EnterOk(s: State, t: Tid, p: Pc)
    requires LocksOk(s) && t in s.pc && s.pc[t] == Idle && !InBroadcastLock(p) && !InCountLock(p)
    requires BeforeUnlock(p) ==> s.mutex == Some(t)
    ensures LocksOk(To(s, t, p))
  {
  }

  // ----- runs -----

  datatype Turn = Turn(t: Tid, call: Call)

  /** The state after the turns, where a thread that cannot go on passes. */
  function Run(s: State, turns: seq<Turn>): State
    decreases |turns|
  {
    if turns == [] then s
    else
      var n := Step(s, turns[0].t, turns[0].call);
      Run(if n.Some? then n.value else s, turns[1..])
  }

  /** The invariant holds in every interleaving. */
  lemma {:induction false} RunOk(s: State, turns: seq<Turn>)
    requires Inv(s)
    ensures Inv(Run(s, turns))
    decreases |turns|
  {
    if turns != [] {
      var n := Step(s, turns[0].t, turns[0].call);
      if n.Some? { StepOk(s, turns[0].t, turns[0].call); }
      RunOk(if n.Some? then n.value else s, turns[1..]);
    }
  }

  /** When a signal that released the semaphore goes on, exactly one waiter has taken the token, it was
      registered at the look, the event was set once, and semaphore and event are as before the call. */
  lemma SignalWakesOne(s: State, t: Tid)
    requires Inv(s) && t in s.pc && s.pc[t] == SWait && Next(s, t).Some?
    ensures var s' := Next(s, t).value;
            && |s.taken| == 1 && s.taken <= s.targets && s.sets == 1
            && s'.sem == 0 && !s'.event && N(s', HasToken) == 0 && N(s', IsLast) == 0
  {
    OnlyWaker(s, t);
    PhaseStep(s, t, Next(s, t).value);
    WakerStep(s, t, Next(s, t).value);
  }

  /** When a broadcast that released the semaphore goes on, exactly those that were registered then have
      taken a token, nobody is counted any more, and semaphore and event are as before the call. */
  lemma BroadcastWakesAll(s: State, t: Tid)
    requires Inv(s) && t in s.pc && s.pc[t] == BWait && Next(s, t).Some?
    ensures var s' := Next(s, t).value;
            && s.taken == s.targets && s.sets == 1 && s'.count == 0
            && s'.sem == 0 && !s'.event && N(s', HasToken) == 0 && N(s', IsLast) == 0
  {
    OnlyWaker(s, t);
    PhaseStep(s, t, Next(s, t).value);
    WakerStep(s, t, Next(s, t).value);
    assert Those(s.pc, IsCounted) == {};
    forall x | x in s.targets
      ensures x in s.taken
    {
      assert x !in Those(s.pc, IsCounted);
    }
  }

  /** Between wake-ups there is no token and no event that a later waiter could take. */
  lemma NothingLeft(s: State)
    requires Inv(s) && s.broadcastLock == None
    ensures s.sem == 0 && !s.event && !s.isBroadcast
  {
  }

  // ----- the waker is never stuck -----

  /** What is left to do before the event is set. */
  function Left(s: State): nat {
    N(s, Heavy(1)) + N(s, Heavy(2)) + N(s, Heavy(3)) + N(s, Heavy(4)) + N(s, Heavy(5)) + N(s, Heavy(6))
  }

  function Heavy(k: nat): Pc -> bool {
    (p: Pc) => Weight(p) >= k
  }

  function Weight(p: Pc): nat {
    match p
    case WUnlockMutex => 6
    case WSemaphore => 5
    case WLockAgain => 4
    case WUncount => 3
    case WUnlockAgain(_) => 2
    case WEvent(_) => 1
    case BUnlockCount => 1
    case _ => 0
  }

  lemma LeftStep(s: State, t: Tid, b: Pc)
    requires t in s.pc
    ensures Left(To(s, t, b)) == Left(s) - Weight(s.pc[t]) + Weight(b)
    ensures Left(s) >= Weight(s.pc[t])
  {
    CountStep(s.pc, t, b, Heavy(1));
    CountStep(s.pc, t, b, Heavy(2));
    CountStep(s.pc, t, b, Heavy(3));
    CountStep(s.pc, t, b, Heavy(4));
    CountStep(s.pc, t, b, Heavy(5));
    CountStep(s.pc, t, b, Heavy(6));
  }

  /** While a waker waits, no step of any thread adds to what is left. */
  lemma NeverMore(s: State, t: Tid, call: Call)
    requires Inv(s) && IsWaking(Waker(s)) && Step(s, t, call).Some?
    ensures Left(Step(s, t, call).value) <= Left(s)
  {
    var s' := Step(s, t, call).value;
    OnlyWaker(s, t);
    StepWeight(s, t, call);
    hide Inv, Waker, Step;
    LeftStep(s, t, s'.pc[t]);
    assert Left(s') == Left(To(s, t, s'.pc[t]));
  }

  /** While a waker waits, nobody comes to wait anew. */
  lemma StepWeight(s: State, t: Tid, call: Call)
    requires t in s.pc && Step(s, t, call).Some?
    requires InBroadcastLock(s.pc[t]) ==> IsWaking(s.pc[t])
    ensures var s' := Step(s, t, call).value;
            t in s'.pc && s'.pc == s.pc[t := s'.pc[t]] && Weight(s'.pc[t]) <= Weight(s.pc[t])
  {
  }

  /** While a waker waits, either it can go on, or some thread can take a step that leaves less to do. */
  lemma NeverStuck(s: State) returns (t: Tid)
    requires Inv(s) && IsWaking(Waker(s))
    ensures t in s.pc && Next(s, t).Some? && s.pc[t] != Idle
    ensures s.broadcastLock == Some(t) || Left(Next(s, t).value) < Left(s)
  {
    var w := s.broadcastLock.value;
    if s.event || s.pc[w].BUnlockCount? {
      t := w;
    } else if s.countLock.Some? {
      t := s.countLock.value;
      OnlyWaker(s, t);
      Goes(s, t);
    } else {
      t := Someone(s);
      Goes(s, t);
    }
  }

  /** One that waits for a token that is there, has one, or will set the event. */
  lemma Someone(s: State) returns (t: Tid)
    requires Inv(s) && IsWaking(Waker(s)) && !s.event && !Waker(s).BUnlockCount? && s.countLock == None
    ensures t in s.pc && Weight(s.pc[t]) > 0 && Next(s, t).Some? && !InBroadcastLock(s.pc[t])
  {
    if N(s, IsLast) > 0 {
      t :| t in Those(s.pc, IsLast);
    } else if N(s, HasToken) > 0 {
      t :| t in Those(s.pc, HasToken);
    } else {
      assert s.sem > 0;
      t := Untaken(s);
    }
  }

  lemma Untaken(s: State) returns (t: Tid)
    requires Inv(s) && IsWaking(Waker(s)) && s.sem > 0 && N(s, HasToken) == 0
    ensures t in s.pc && Waiting(s.pc[t])
  {
    if Waker(s).SWait? {
      t := WaiterLeft(s);
    } else {
      assert s.count > 0;
      t :| t in Those(s.pc, IsCounted);
      OnlyWaker(s, t);
      assert HasToken(s.pc[t]) ==> t in Those(s.pc, HasToken);
    }
  }

  lemma WaiterLeft(s: State) returns (t: Tid)
    requires Inv(s) && Waker(s).SWait? && s.sem > 0 && N(s, HasToken) == 0
    ensures t in s.pc && Waiting(s.pc[t])
  {
    t :| t in Those(s.pc, IsCounted);
    OnlyWaker(s, t);
    assert HasToken(s.pc[t]) ==> t in Those(s.pc, HasToken);
  }

  lemma Goes(s: State, t: Tid)
    requires t in s.pc && Weight(s.pc[t]) > 0 && Next(s, t).Some?
    ensures Left(Next(s, t).value) < Left(s)
  {
    var s' := Next(s, t).value;
    NextWeight(s, t);
    hide Next, Weight;
    LeftStep(s, t, s'.pc[t]);
    assert Left(s') == Left(To(s, t, s'.pc[t]));
  }

  lemma NextWeight(s: State, t: Tid)
    requires t in s.pc && Weight(s.pc[t]) > 0 && Next(s, t).Some?
    ensures var s' := Next(s, t).value;
            t in s'.pc && s'.pc == s.pc[t := s'.pc[t]] && Weight(s'.pc[t]) < Weight(s.pc[t])
  {
  }

  /** However the threads have been interleaved, the steps that are missing can be taken: after them the waker has gone
      on. */
  lemma {:induction false} WakerGoesOn(s: State) returns (turns: seq<Turn>)
    requires Inv(s) && IsWaking(Waker(s))
    ensures |turns| <= Left(s) + 1
    ensures var w, s' := s.broadcastLock.value, Run(s, turns);
            w in s'.pc && s'.pc[w] == if s.pc[w].SWait? then SUnlockBroadcast else BDone
    decreases Left(s)
  {
    var w := s.broadcastLock.value;
    var t := NeverStuck(s);
    var s1 := Next(s, t).value;
    var turn := Turn(t, Continue);
    StepOk(s, t, Continue);
    WakerWaits(s, t);
    hide Inv, Next, IsWaking, Left;
    if t == w && !s.pc[w].BUnlockCount? {
      turns := [turn];
      assert Run(s, turns) == Run(s1, []) == s1;
    } else {
      turns := WakerGoesOn(s1);
      turns := [turn] + turns;
      OneTurn(s, turns);
    }
  }

  lemma OneTurn(s: State, turns: seq<Turn>)
    requires turns != [] && turns[0].t in s.pc && s.pc[turns[0].t] != Idle && turns[0].call == Continue
    requires Next(s, turns[0].t).Some?
    ensures Run(s, turns) == Run(Next(s, turns[0].t).value, turns[1..])
  {
    hide Next;
  }

  /** A step of the waker, and of any other thread that leaves less to do. */
  lemma WakerWaits(s: State, t: Tid)
    requires Inv(s) && IsWaking(Waker(s)) && t in s.pc && Next(s, t).Some? && s.pc[t] != Idle
    ensures var w, s1 := s.broadcastLock.value, Next(s, t).value;
            && w in s.pc && w in s1.pc
            && (t == w && s.pc[w].BUnlockCount? ==>
                  IsWaking(Waker(s1)) && s1.broadcastLock == Some(w) && s1.pc[w] == BWait && Left(s1) < Left(s))
            && (t == w && !s.pc[w].BUnlockCount? ==>
                  s1.pc[w] == if s.pc[w].SWait? then SUnlockBroadcast else BDone)
            && (t != w ==> IsWaking(Waker(s1)) && s1.broadcastLock == Some(w) && s1.pc[w] == s.pc[w])
  {
    hide Left, PhaseOk, HistoryOk;
    var w := s.broadcastLock.value;
    OnlyWaker(s, t);
    OnlyWaker(s, w);
    if t == w && s.pc[w].BUnlockCount? { Goes(s, w); }
  }

  // ----- from the start -----

  /** The invariant holds after any turns of any threads on a new condition variable. */
  lemma FromStart(threads: set<Tid>, turns: seq<Turn>)
    ensures Inv(Run(Initial(threads), turns))
  {
    InitialOk(threads);
    hide Inv;
    RunOk(Initial(threads), turns);
  }

  lemma EverySignal(threads: set<Tid>, turns: seq<Turn>, t: Tid)
    requires var s := Run(Initial(threads), turns); t in s.pc && s.pc[t] == SWait && Next(s, t).Some?
    ensures var s := Run(Initial(threads), turns);
            var s' := Next(s, t).value;
            && |s.taken| == 1 && s.taken <= s.targets && s.sets == 1
            && s'.sem == 0 && !s'.event && N(s', HasToken) == 0 && N(s', IsLast) == 0
  {
    FromStart(threads, turns);
    hide Inv, Run, Next;
    SignalWakesOne(Run(Initial(threads), turns), t);
  }

  lemma EveryBroadcast(threads: set<Tid>, turns: seq<Turn>, t: Tid)
    requires var s := Run(Initial(threads), turns); t in s.pc && s.pc[t] == BWait && Next(s, t).Some?
    ensures var s := Run(Initial(threads), turns);
            var s' := Next(s, t).value;
            && s.taken == s.targets && s.sets == 1 && s'.count == 0
            && s'.sem == 0 && !s'.event && N(s', HasToken) == 0 && N(s', IsLast) == 0
  {
    FromStart(threads, turns);
    hide Inv, Run, Next;
    BroadcastWakesAll(Run(Initial(threads), turns), t);
  }

  /** A new wait never meets what an earlier wake-up left. */
  lemma EveryPause(threads: set<Tid>, turns: seq<Turn>)
    requires Run(Initial(threads), turns).broadcastLock == None
    ensures var s := Run(Initial(threads), turns); s.sem == 0 && !s.event && !s.isBroadcast
  {
    FromStart(threads, turns);
    hide Inv, Run;
    NothingLeft(Run(Initial(threads), turns));
  }

  /** Every waker can come to its end. */
  lemma EveryWaker(threads: set<Tid>, turns: seq<Turn>) returns (more: seq<Turn>)
    requires IsWaking(Waker(Run(Initial(threads), turns)))
    ensures var s := Run(Initial(threads), turns);
            var s' := Run(s, more);
            && s.broadcastLock.Some? && s.broadcastLock.value in s.pc && s.broadcastLock.value in s'.pc
            && s'.pc[s.broadcastLock.value] ==
               if s.pc[s.broadcastLock.value].SWait? then SUnlockBroadcast else BDone
  {
    FromStart(threads, turns);
    var s := Run(Initial(threads), turns);
    assert s.broadcastLock.Some? && s.broadcastLock.value in s.pc;
    hide Inv, Run, IsWaking, Waker;
    more := WakerGoesOn(s);
  }
}

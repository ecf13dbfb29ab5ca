/**
 What a caller gets from each operation, over a whole call in any run: the code that it returns and whether
 the caller holds the mutex then (CallReturns), and how many steps of its own it takes when nobody stands
 in the way (StepGetsNearer, CallIsOver).
 */
module HtllCalls {
  import opened LockWord
  import opened Options
  import opened HtllModel
  import opened HtllSafety
  import opened HtllRuns

  // ----- where a call is

  /** A timed wait may have become late. */
  predicate OrLate(k': Kind, k: Kind) { k' == k || (k == InTimedWait && k' == InLateWait) }

  /** Can a thread be at `p` in a wait on `c` with `m`? */
  predicate DuringWait(p: Pc, c: Cid, m: Mid, k: Kind) {
    match p
    case Binding(_, c', m', _, k') => c' == c && m' == m && k' == k
    case Unlocking(_, m', ToSleep(c', _, k')) => c' == c && m' == m && k' == k
    case CondCall(c', m', _, k') => c' == c && m' == m && k' == k
    case CondAsleep(c', m', _, k') => c' == c && m' == m && k' == k
    case Remark(m', k') => m' == m && OrLate(k', k)
    case WaitCall(m', k') => m' == m && OrLate(k', k)
    case Asleep(_, m', k') => m' == m && OrLate(k', k)
    case _ => false
  }

  /** Can a thread be at `p` in the call `op`? */
  predicate During(p: Pc, op: Op) {
    match op
    case OpLock(m, inSegment) => (
      match p
      case Spin(m', s, _) => m' == m && s == inSegment
      case Mark(m', s) => m' == m && s == inSegment
      case NapCall(m') => m' == m && inSegment
      case Napping(m') => m' == m && inSegment
      case NapDone(m') => m' == m && inSegment
      case Remark(m', k) => m' == m && k == InLock && !inSegment
      case WaitCall(m', k) => m' == m && k == InLock && !inSegment
      case Asleep(_, m', k) => m' == m && k == InLock && !inSegment
      case _ => false
    )
    case OpTrylock(m) => p == TryOnce(m)
    case OpUnlock(m) => p.Unlocking? && p.m == m && p.next == ToCaller
    case OpWait(c, m) => DuringWait(p, c, m, InWait)
    case OpTimedWait(c, m) => DuringWait(p, c, m, InTimedWait)
    case OpSignal(c) => p == SignalInc(c) || p == SignalWake(c)
    case OpBroadcast(c) =>
      p == BroadcastRead(c) || (p.BroadcastInc? && p.c == c) || (p.BroadcastRequeue? && p.c == c)
  }

  /** The mutex that the call gives up, now or for good. */
  function GivesUp(op: Op): Option<Mid> {
    match op
    case OpUnlock(m) => Some(m)
    case OpWait(_, m) => Some(m)
    case OpTimedWait(_, m) => Some(m)
    case _ => None
  }

  /** Has a call that gives up its mutex not done so yet? */
  predicate StillHolds(p: Pc) { p.Binding? || (p.Unlocking? && Holding(p.at)) }

  /** `t` is in the call `op`; it holds the mutex that the call gives up exactly until the release. */
  predicate InCall(s: State, t: Tid, op: Op) {
    && t < |s.pc| && During(s.pc[t], op)
    && (GivesUp(op).Some? ==> (Owns(s, t, GivesUp(op).value) <==> StillHolds(s.pc[t])))
  }

  /** `t` is back from the call `op`: a lock has the mutex and returns 0; a trylock has it or returns EBUSY;
      an unlock does not have it any more; a wait has it, and returns ETIMEDOUT only if it is timed. */
  predicate Back(s: State, t: Tid, op: Op) {
    && t < |s.pc| && s.pc[t].Idle?
    && var code := s.pc[t].code;
       match op
       case OpLock(m, _) => code == Ok && Owns(s, t, m)
       case OpTrylock(m) => code == Busy || (code == Ok && Owns(s, t, m))
       case OpUnlock(m) => code == Ok && !Owns(s, t, m)
       case OpWait(_, m) => (code == Ok || code == Inval) && Owns(s, t, m)
       case OpTimedWait(_, m) => (code == Ok || code == Inval || code == TimedOut) && Owns(s, t, m)
       case OpSignal(_) => code == Ok
       case OpBroadcast(_) => code == Ok
  }

  // ----- one step of the caller

  lemma LockerGoesOn(s: State, t: Tid, ch: Choice, m: Mid, inSegment: bool)
    requires InCall(s, t, OpLock(m, inSegment)) && HasMutex(s, m) && InRange(s, s.pc[t])
    ensures InCall(LockStep(s, t, ch), t, OpLock(m, inSegment)) || Back(LockStep(s, t, ch), t, OpLock(m, inSegment))
  {
  }

  lemma RelockerGoesOn(s: State, t: Tid, ch: Choice, op: Op, m: Mid)
    requires InCall(s, t, op) && Locking(s.pc[t]) && GivesUp(op) == Some(m) && HasMutex(s, m) && InRange(s, s.pc[t])
    ensures InCall(LockStep(s, t, ch), t, op) || Back(LockStep(s, t, ch), t, op)
  {
  }

  lemma TryerGoesOn(s: State, t: Tid, ch: Choice, m: Mid)
    requires InCall(s, t, OpTrylock(m)) && HasMutex(s, m) && InRange(s, s.pc[t])
    ensures InCall(LockStep(s, t, ch), t, OpTrylock(m)) || Back(LockStep(s, t, ch), t, OpTrylock(m))
  {
  }

  lemma LockStepGoesOn(s: State, t: Tid, ch: Choice, op: Op)
    requires Inv(s) && Enabled(s, t, ch) && Locking(s.pc[t]) && InCall(s, t, op)
    ensures InCall(LockStep(s, t, ch), t, op) || Back(LockStep(s, t, ch), t, op)
  {
    match op
    case OpLock(m, inSegment) => LockerGoesOn(s, t, ch, m, inSegment);
    case OpTrylock(m) => TryerGoesOn(s, t, ch, m);
    case OpWait(_, m) => RelockerGoesOn(s, t, ch, op, m);
    case OpTimedWait(_, m) => RelockerGoesOn(s, t, ch, op, m);
    case _ =>
  }

  lemma UnlockerGoesOn(s: State, t: Tid, ch: Choice, op: Op)
    requires ThreadAt(s, t) && s.pc[t].Unlocking? && InCall(s, t, op)
    ensures InCall(UnlockStep(s, t, ch), t, op) || Back(UnlockStep(s, t, ch), t, op)
  {
  }

  lemma WaiterGoesOn(s: State, t: Tid, ch: Choice, op: Op)
    requires ThreadAt(s, t) && (s.pc[t].Binding? || s.pc[t].CondCall?) && InCall(s, t, op)
    ensures InCall(WaitStep(s, t, ch), t, op) || Back(WaitStep(s, t, ch), t, op)
  {
  }

  lemma SignallerGoesOn(s: State, t: Tid, ch: Choice, op: Op)
    requires Enabled(s, t, ch) && Signalling(s.pc[t]) && InCall(s, t, op)
    ensures InCall(SignalStep(s, t, ch), t, op) || Back(SignalStep(s, t, ch), t, op)
  {
  }

  lemma MoverGoesOn(s: State, t: Tid, ch: Choice, op: Op)
    requires Inv(s) && Enabled(s, t, ch) && InCall(s, t, op)
    ensures InCall(Next(s, t, ch), t, op) || Back(Next(s, t, ch), t, op)
  {
    assert ThreadOk(s, t);
    if s.pc[t].Unlocking? {
      assert Next(s, t, ch) == UnlockStep(s, t, ch);
      UnlockerGoesOn(s, t, ch, op);
    } else if s.pc[t].Binding? || s.pc[t].CondCall? {
      assert Next(s, t, ch) == WaitStep(s, t, ch);
      WaiterGoesOn(s, t, ch, op);
    } else if Signalling(s.pc[t]) {
      assert Next(s, t, ch) == SignalStep(s, t, ch);
      SignallerGoesOn(s, t, ch, op);
    } else if Locking(s.pc[t]) {
      assert Next(s, t, ch) == LockStep(s, t, ch);
      LockStepGoesOn(s, t, ch, op);
    } else {
      assert CondOk(s, s.pc[t].c);
    }
  }

  /** Whatever another thread does, the call goes on. */
  lemma BystanderGoesOn(s: State, s': State, u: Tid, t: Tid, op: Op)
    requires Evolves(s, s', u) && u != t && InCall(s, t, op)
    ensures InCall(s', t, op)
  {
    assert Bystander(s.pc[t], s'.pc[t], s);
    if GivesUp(op).Some? && HasMutex(s, GivesUp(op).value) {
      assert AtomicStep(s.mx[GivesUp(op).value].owner, s'.mx[GivesUp(op).value].owner, u);
    }
  }

  lemma StepGoesOn(s: State, e: Event, s': State, t: Tid, op: Op)
    requires Inv(s) && IsStep(s, e, s') && Evolves(s, s', e.t) && InCall(s, t, op)
    ensures InCall(s', t, op) || Back(s', t, op)
  {
    if e.t == t { MoverGoesOn(s, t, e.ch, op); } else { BystanderGoesOn(s, s', e.t, t, op); }
  }

  lemma CallerBegins(s: State, t: Tid, ch: Choice)
    requires Enabled(s, t, ch) && s.pc[t].Idle?
    ensures InCall(CallStep(s, t, ch), t, ch.op)
  {
  }

  // ----- whole calls

  /** Step `a` is thread `t`'s call of `op`. */
  ghost predicate Calls(states: seq<State>, events: seq<Event>, a: nat, t: Tid, op: Op)
    requires IsRun(states, events) && a < |events|
  {
    events[a].t == t && events[a].ch.op == op && t < |states[a].pc| && states[a].pc[t].Idle?
  }

  /** `t` is in a call in all states after `a` and before `n`. */
  ghost predicate Busily(states: seq<State>, a: nat, n: nat, t: Tid)
    requires n <= |states|
  {
    forall k :: a < k < n ==> t < |states[k].pc| && !states[k].pc[t].Idle?
  }

  lemma {:induction false} CallGoesOn(states: seq<State>, events: seq<Event>, a: nat, n: nat, t: Tid, op: Op)
    requires FreshRun(states, events) && a < n <= |events| && Calls(states, events, a, t, op)
    requires Busily(states, a, n, t)
    ensures InCall(states[n], t, op) || Back(states[n], t, op)
  {
    RunEvolves(states, events, n - 1);
    if n == a + 1 {
      CallerBegins(states[a], t, events[a].ch);
      assert states[n] == CallStep(states[a], t, events[a].ch);
    } else {
      CallGoesOn(states, events, a, n - 1, t, op);
      StepGoesOn(states[n - 1], events[n - 1], states[n], t, op);
    }
  }

  /** Over a whole call in any run, whatever the other threads do, the caller comes back with the code and
      the ownership that the operation promises; until then it is at one of the operation's own steps. */
  lemma CallReturns(states: seq<State>, events: seq<Event>, a: nat, n: nat, t: Tid, op: Op)
    requires FreshRun(states, events) && a < n <= |events| && Calls(states, events, a, t, op)
    requires Busily(states, a, n, t) && t < |states[n].pc|
    ensures if states[n].pc[t].Idle? then Back(states[n], t, op) else InCall(states[n], t, op)
  {
    CallGoesOn(states, events, a, n, t, op);
  }

  /** A trylock returns EBUSY if and only if the mutex is held when its exchange looks. */
  lemma TrylockReturnsBusyIffHeld(states: seq<State>, events: seq<Event>, a: nat, n: nat, t: Tid, m: Mid)
    requires FreshRun(states, events) && a < n < |events| && Calls(states, events, a, t, OpTrylock(m))
    requires Busily(states, a, n + 1, t) && t < |states[n + 1].pc| && states[n + 1].pc[t].Idle?
    ensures events[n].t == t && HasMutex(states[n], m)
    ensures states[n + 1].pc[t] == Idle(Busy) <==> states[n].mx[m].owner.Some?
  {
    CallReturns(states, events, a, n, t, OpTrylock(m));
    RunEvolves(states, events, n);
    if events[n].t == t { TrylockRefusesIffHeld(states[n], t, events[n].ch, m); }
  }

  // ----- how far a call is from its return

  /** Steps of its own from the release of the condition wait on. */
  const AFTER_RELEASE := 3

  function UnlockDistance(at: UStage): nat {
    match at
    case Look => 11
    case Cas => 10
    case Load => 9
    case Store(_) => 8
    case Test => 7
    case Adjust => 6
    case Release => 5
    case Peek1 => 4
    case Peek2 => 3
    case Clear => 2
    case Wake => 1
  }

  /** A bound on the steps that a thread at `p` has yet to make, if it finds its mutex free. */
  function ToReturn(p: Pc): nat {
    match p
    case Idle(_) => 0
    case Spin(_, _, _) => 1
    case Mark(_, _) => 1
    case Remark(_, _) => 1
    case TryOnce(_) => 1
    case WaitCall(_, _) => 2
    case Asleep(_, _, _) => 2
    case NapDone(_) => 2
    case NapCall(_) => 3
    case Napping(_) => 3
    case Unlocking(at, _, next) => UnlockDistance(at) + if next.ToSleep? then AFTER_RELEASE else 0
    case CondAsleep(_, _, _, _) => 2
    case CondCall(_, _, _, _) => AFTER_RELEASE
    case Binding(at, _, _, _, _) => (
      match at
      case ReadSeq => 19
      case Compare => 18
      case IsSet => 17
      case Bind => 16
      case Recheck => 15
    )
    case SignalInc(_) => 2
    case SignalWake(_) => 1
    case BroadcastRead(_) => 3
    case BroadcastInc(_, _) => 2
    case BroadcastRequeue(_, _) => 1
  }

  /** The mutex whose word the next step of a lock or of a re-acquiring wait exchanges or compares. */
  predicate Contends(p: Pc, m: Mid) {
    match p
    case Spin(m', _, _) => m' == m
    case Mark(m', _) => m' == m
    case NapCall(m') => m' == m
    case Remark(m', _) => m' == m
    case WaitCall(m', _) => m' == m
    case _ => false
  }

  /** The next step of `t` does not find its mutex held. */
  ghost predicate Unhindered(s: State, t: Tid)
    requires t < |s.pc|
  {
    forall m: Mid :: HasMutex(s, m) && Contends(s.pc[t], m) ==> s.mx[m].owner == None
  }

  lemma LockerGetsNearer(s: State, t: Tid, ch: Choice)
    requires t < |s.pc| && InRange(s, s.pc[t]) && Locking(s.pc[t])
    requires forall m: Mid :: HasMutex(s, m) && Contends(s.pc[t], m) ==> ReadsFree(s.mx[m].w)
    ensures t < |LockStep(s, t, ch).pc| && ToReturn(LockStep(s, t, ch).pc[t]) < ToReturn(s.pc[t])
  {
    if m: Mid :| Contends(s.pc[t], m) { assert HasMutex(s, m); }
  }

  /** What the accesses of a lock read of a free mutex. */
  predicate ReadsFree(w: Word) { w.locked == UNLOCKED && w.U() != LOCKED_AND_CONTENDED }

  lemma FreeReadsFree(x: Mutex)
    requires WordOk(x) && x.owner == None
    ensures ReadsFree(x.w)
  {
  }

  lemma UnlockerGetsNearer(s: State, t: Tid, ch: Choice)
    requires t < |s.pc| && InRange(s, s.pc[t]) && s.pc[t].Unlocking?
    ensures t < |UnlockStep(s, t, ch).pc| && ToReturn(UnlockStep(s, t, ch).pc[t]) < ToReturn(s.pc[t])
  {
  }

  lemma OthersGetNearer(s: State, t: Tid, ch: Choice)
    requires Enabled(s, t, ch) && (s.pc[t].Binding? || s.pc[t].CondCall? || Signalling(s.pc[t]))
    ensures t < |Next(s, t, ch).pc| && ToReturn(Next(s, t, ch).pc[t]) < ToReturn(s.pc[t])
  {
  }

  /** Every step of a call brings it nearer to its return, unless it finds its mutex held.  So unlock, signal,
      broadcast and trylock never wait for another thread, and neither does a wait but for its sleep. */
  lemma StepGetsNearer(s: State, t: Tid, ch: Choice)
    requires Inv(s) && Enabled(s, t, ch) && !s.pc[t].Idle? && Unhindered(s, t)
    ensures t < |Next(s, t, ch).pc| && ToReturn(Next(s, t, ch).pc[t]) < ToReturn(s.pc[t])
  {
    assert ThreadOk(s, t);
    if Locking(s.pc[t]) {
      forall m: Mid | HasMutex(s, m) && Contends(s.pc[t], m) ensures ReadsFree(s.mx[m].w) {
        assert MutexOk(s, m);
        FreeReadsFree(s.mx[m]);
      }
      LockerGetsNearer(s, t, ch);
    } else if s.pc[t].CondAsleep? {
      assert CondOk(s, s.pc[t].c);
    } else if s.pc[t].Unlocking? {
      UnlockerGetsNearer(s, t, ch);
    } else {
      OthersGetNearer(s, t, ch);
    }
  }

  /** A thread that does not move gets no further away: the kernel can only let it go or requeue it. */
  lemma OthersStayNear(s: State, s': State, u: Tid, t: Tid)
    requires Evolves(s, s', u) && u != t && t < |s.pc|
    ensures ToReturn(s'.pc[t]) <= ToReturn(s.pc[t])
  {
    assert Bystander(s.pc[t], s'.pc[t], s);
  }

  /** How many of the steps `a` to `n - 1` are `t`'s. */
  ghost function OwnSteps(events: seq<Event>, a: nat, n: nat, t: Tid): nat
    requires a <= n <= |events|
  {
    if n == a then 0 else OwnSteps(events, a, n - 1, t) + if events[n - 1].t == t then 1 else 0
  }

  lemma {:induction false} OwnStepsCountDown(states: seq<State>, events: seq<Event>, a: nat, n: nat, t: Tid)
    requires FreshRun(states, events) && a <= n <= |events| && t < |states[a].pc| && t < |states[n].pc|
    requires forall k :: a <= k < n ==> t < |states[k].pc| && !states[k].pc[t].Idle?
    requires forall k :: a <= k < n && events[k].t == t ==> Unhindered(states[k], t)
    ensures OwnSteps(events, a, n, t) + ToReturn(states[n].pc[t]) <= ToReturn(states[a].pc[t])
  {
    if a < n {
      OwnStepsCountDown(states, events, a, n - 1, t);
      RunEvolves(states, events, n - 1);
      if events[n - 1].t == t {
        StepGetsNearer(states[n - 1], t, events[n - 1].ch);
      } else {
        OthersStayNear(states[n - 1], states[n], events[n - 1].t, t);
      }
    }
  }

  function CallLength(op: Op): nat {
    match op
    case OpLock(_, _) => 1
    case OpTrylock(_) => 1
    case OpUnlock(_) => 11
    case OpWait(_, _) => 19
    case OpTimedWait(_, _) => 19
    case OpSignal(_) => 2
    case OpBroadcast(_) => 3
  }

  lemma CallStart(states: seq<State>, events: seq<Event>, a: nat, t: Tid, op: Op)
    requires FreshRun(states, events) && a < |events| && Calls(states, events, a, t, op)
    ensures t < |states[a + 1].pc| && ToReturn(states[a + 1].pc[t]) == CallLength(op)
  {
    assert StepAt(states, events, a);
    assert states[a + 1] == CallStep(states[a], t, events[a].ch);
  }

  /** Any call is over when its thread has made so many more steps: 1 for a lock or a trylock, 11 for an
      unlock, 19 for a wait, 2 for a signal, 3 for a broadcast, as long as none of them finds its mutex
      held. */
  lemma CallIsOver(states: seq<State>, events: seq<Event>, a: nat, n: nat, t: Tid, op: Op)
    requires FreshRun(states, events) && a < n <= |events| && Calls(states, events, a, t, op)
    requires forall k :: a < k < n && events[k].t == t && t < |states[k].pc| ==> Unhindered(states[k], t)
    requires OwnSteps(events, a + 1, n, t) >= CallLength(op)
    ensures exists k :: a < k <= n && t < |states[k].pc| && states[k].pc[t].Idle?
  {
    forall k | a < k <= n ensures t < |states[k].pc| { RunShape(states, events, a, k); }
    if forall k :: a < k <= n ==> !states[k].pc[t].Idle? {
      CallStart(states, events, a, t, op);
      OwnStepsCountDown(states, events, a + 1, n, t);
    }
  }
}

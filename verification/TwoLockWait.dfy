/**
 The pthread wrapper under COND_VAR: a mutex is two pthread mutexes, `lock` and `posix_lock`, taken in
 this order; a condition wait releases `lock` first and sleeps with `posix_lock`
 (litl/src/pthreadinterpose.c, lines 56-91 and 110-145).  Any number of threads, one step for each call
 of the pthread library.
 */
module TwoLockWait {
  import opened Options

  type Tid = nat

  datatype Pc =
    | Outside             // not in any call, holds nothing
    | WantLock            // 58
    | WantPosix           // 60: has `lock`
    | SpinPosix           // 72: trylock has `lock`
    | Inside              // not in any call, holds the mutex
    | Unlocking           // 90: `posix_lock` released
    | WaitUnlock          // 117
    | WaitSleep           // 120, 122: has `posix_lock` only, about to sleep
    | Asleep              // in pthread_cond_wait
    | Reacquire           // let go, pthread_cond_wait wants `posix_lock` again
    | WaitRelease         // 130: has `posix_lock` only
    | WaitLock            // 135
    | WaitPosix           // 136: has `lock`

  /** `lock` and `posix` are the owners of the two pthread mutexes. */
  datatype State = State(lock: Option<Tid>, posix: Option<Tid>, pc: seq<Pc>)

  datatype Call = Lock | TryLock | Unlock | Wait

  datatype Step = Moves(call: Call) | Wakes   // `Wakes`: a signal, a broadcast or the timeout

  function Init(n: nat): State { State(None, None, seq(n, _ => Outside)) }

  /** Blocked on a pthread mutex.  The spin on `posix_lock` counts: it leads nowhere by itself. */
  predicate WantsLock(p: Pc) { p == WantLock || p == WaitLock }

  predicate WantsPosix(p: Pc) { p == WantPosix || p == SpinPosix || p == Reacquire || p == WaitPosix }

  predicate HasLock(p: Pc) {
    p == WantPosix || p == SpinPosix || p == Inside || p == Unlocking || p == WaitUnlock || p == WaitPosix
  }

  predicate HasPosix(p: Pc) { p == Inside || p == WaitUnlock || p == WaitSleep || p == WaitRelease }

  predicate Enabled(s: State, t: Tid, step: Step) {
    && t < |s.pc|
    && match step
       case Wakes => s.pc[t] == Asleep
       case Moves(call) =>
         && s.pc[t] != Asleep
         && (WantsLock(s.pc[t]) ==> s.lock == None)
         && (WantsPosix(s.pc[t]) ==> s.posix == None)
         && (s.pc[t] == Outside ==> call == Lock || call == TryLock)
         && (s.pc[t] == Inside ==> call == Unlock || call == Wait)
  }

  function Next(s: State, t: Tid, step: Step): State
    requires Enabled(s, t, step)
  {
    var to := (p: Pc) => s.pc[t := p];
    if step.Wakes? then s.(pc := to(Reacquire))
    else
      match s.pc[t]
      case Outside =>
        if step.call == Lock then s.(pc := to(WantLock))
        else if s.lock == None then s.(lock := Some(t), pc := to(SpinPosix))
        else s
      case WantLock => s.(lock := Some(t), pc := to(WantPosix))
      case WantPosix => s.(posix := Some(t), pc := to(Inside))
      case SpinPosix => s.(posix := Some(t), pc := to(Inside))
      case Inside =>
        if step.call == Unlock then s.(posix := None, pc := to(Unlocking)) else s.(pc := to(WaitUnlock))
      case Unlocking => s.(lock := None, pc := to(Outside))
      case WaitUnlock => s.(lock := None, pc := to(WaitSleep))
      case WaitSleep => s.(posix := None, pc := to(Asleep))
      case Reacquire => s.(posix := Some(t), pc := to(WaitRelease))
      case WaitRelease => s.(posix := None, pc := to(WaitLock))
      case WaitLock => s.(lock := Some(t), pc := to(WaitPosix))
      case WaitPosix => s.(posix := Some(t), pc := to(Inside))
      case Asleep => s
  }

  // ----- the invariant

  predicate ThreadOk(s: State, t: Tid)
    requires t < |s.pc|
  {
    (HasLock(s.pc[t]) <==> s.lock == Some(t)) && (HasPosix(s.pc[t]) <==> s.posix == Some(t))
  }

  ghost predicate Inv(s: State) {
    && (forall t: Tid :: t < |s.pc| ==> ThreadOk(s, t))
    && (s.lock.Some? ==> s.lock.value < |s.pc|)
    && (s.posix.Some? ==> s.posix.value < |s.pc|)
  }

  lemma InitInv(n: nat)
    ensures Inv(Init(n))
  {
  }

  lemma MoverStaysOk(s: State, t: Tid, step: Step)
    requires Enabled(s, t, step) && ThreadOk(s, t)
    ensures t < |Next(s, t, step).pc| == |s.pc| && ThreadOk(Next(s, t, step), t)
  {
  }

  lemma OthersStayOk(s: State, t: Tid, step: Step, t': Tid)
    requires Enabled(s, t, step) && ThreadOk(s, t) && t' < |s.pc| && t' != t && ThreadOk(s, t')
    ensures t' < |Next(s, t, step).pc| && ThreadOk(Next(s, t, step), t')
  {
  }

  lemma StepKeepsInv(s: State, t: Tid, step: Step)
    requires Inv(s) && Enabled(s, t, step)
    ensures Inv(Next(s, t, step))
  {
    MoverStaysOk(s, t, step);
    forall t': Tid | t' < |s.pc| ensures ThreadOk(Next(s, t, step), t') {
      if t' != t { OthersStayOk(s, t, step, t'); }
    }
  }

  ghost predicate IsRun(states: seq<State>, schedule: seq<(Tid, Step)>) {
    && |states| == |schedule| + 1
    && (exists n: nat :: states[0] == Init(n))
    && forall i :: 0 <= i < |schedule| ==> StepsAt(states, schedule, i)
  }

  ghost predicate StepsAt(states: seq<State>, schedule: seq<(Tid, Step)>, i: nat)
    requires |states| == |schedule| + 1 && i < |schedule|
  {
    && Enabled(states[i], schedule[i].0, schedule[i].1)
    && states[i + 1] == Next(states[i], schedule[i].0, schedule[i].1)
  }

  lemma {:induction false} RunInv(states: seq<State>, schedule: seq<(Tid, Step)>, n: nat)
    requires IsRun(states, schedule) && n <= |schedule|
    ensures Inv(states[n])
  {
    if n == 0 {
      var k: nat :| states[0] == Init(k);
      InitInv(k);
    } else {
      RunInv(states, schedule, n - 1);
      assert StepsAt(states, schedule, n - 1);
      StepKeepsInv(states[n - 1], schedule[n - 1].0, schedule[n - 1].1);
    }
  }

  // ----- mutual exclusion, and no lost wakeup

  /** At most one thread holds the mutex, and then it holds both locks. */
  lemma OneInside(states: seq<State>, schedule: seq<(Tid, Step)>, n: nat, t: Tid, t': Tid)
    requires IsRun(states, schedule) && n <= |schedule| && t < |states[n].pc| && t' < |states[n].pc|
    requires states[n].pc[t] == Inside && states[n].pc[t'] == Inside
    ensures t == t' && states[n].lock == Some(t) && states[n].posix == Some(t)
  {
    RunInv(states, schedule, n);
    assert ThreadOk(states[n], t) && ThreadOk(states[n], t');
  }

  /** Between a waiter's release of `lock` and its sleep nobody holds the mutex, so no signal sent while
      holding it can fall into that window. */
  lemma NoSignalInTheWindow(states: seq<State>, schedule: seq<(Tid, Step)>, n: nat, waiter: Tid, t: Tid)
    requires IsRun(states, schedule) && n <= |schedule| && waiter < |states[n].pc| && t < |states[n].pc|
    requires states[n].pc[waiter] == WaitSleep
    ensures states[n].pc[t] != Inside
  {
    RunInv(states, schedule, n);
    assert ThreadOk(states[n], waiter) && ThreadOk(states[n], t);
  }

  // ----- no cyclic wait

  /** `t` cannot move before `t'` releases a lock. */
  predicate WaitsFor(s: State, t: Tid, t': Tid) {
    && t < |s.pc|
    && ((WantsLock(s.pc[t]) && s.lock == Some(t')) || (WantsPosix(s.pc[t]) && s.posix == Some(t')))
  }

  /** `chain` follows waits from thread to thread. */
  predicate WaitChain(s: State, chain: seq<Tid>) {
    forall i :: 0 <= i < |chain| - 1 ==> WaitsFor(s, chain[i], chain[i + 1])
  }

  function Rank(p: Pc): nat { if WantsLock(p) then 2 else if WantsPosix(p) then 1 else 0 }

  lemma WaitDescends(s: State, t: Tid, t': Tid)
    requires Inv(s) && WaitsFor(s, t, t')
    ensures t' < |s.pc| && Rank(s.pc[t']) < Rank(s.pc[t])
  {
    assert ThreadOk(s, t');
  }

  lemma {:induction false} ChainDescends(s: State, chain: seq<Tid>)
    requires Inv(s) && WaitChain(s, chain) && |chain| > 1
    ensures chain[0] < |s.pc| && chain[|chain| - 1] < |s.pc|
    ensures Rank(s.pc[chain[|chain| - 1]]) + |chain| - 1 <= Rank(s.pc[chain[0]])
  {
    var n := |chain|;
    assert WaitsFor(s, chain[n - 2], chain[n - 1]);
    WaitDescends(s, chain[n - 2], chain[n - 1]);
    if n > 2 {
      assert forall i :: 0 <= i < n - 2 ==> WaitsFor(s, chain[i], chain[i + 1]);
      ChainDescends(s, chain[..n - 1]);
    }
  }

  /** In every reachable state, whatever mix of lock, trylock, unlock and timedwait led to it, no chain of
      waits comes back to where it started, and none is longer than three threads. */
  lemma NoCyclicWait(states: seq<State>, schedule: seq<(Tid, Step)>, n: nat, chain: seq<Tid>)
    requires IsRun(states, schedule) && n <= |schedule| && WaitChain(states[n], chain) && |chain| > 1
    ensures |chain| <= 3 && chain[0] != chain[|chain| - 1]
  {
    RunInv(states, schedule, n);
    ChainDescends(states[n], chain);
  }

  /** Is the thread in a call and not asleep in the condition wait? */
  predicate Active(p: Pc) { p != Outside && p != Asleep && p != Inside }

  /** The end of the chain of waits that starts at `t`. */
  lemma {:induction false} WaitsEnd(s: State, t: Tid) returns (u: Tid)
    requires Inv(s) && t < |s.pc| && (Active(s.pc[t]) || s.pc[t] == Inside)
    ensures u < |s.pc| && (Active(s.pc[u]) || s.pc[u] == Inside)
    ensures (WantsLock(s.pc[u]) ==> s.lock == None) && (WantsPosix(s.pc[u]) ==> s.posix == None)
    decreases Rank(s.pc[t])
  {
    if t' :| WaitsFor(s, t, t') {
      WaitDescends(s, t, t');
      assert ThreadOk(s, t');
      u := WaitsEnd(s, t');
    } else {
      u := t;
      if s.lock.Some? { assert !WaitsFor(s, t, s.lock.value); }
      if s.posix.Some? { assert !WaitsFor(s, t, s.posix.value); }
    }
  }

  /** No deadlock: while some thread is in a call and not asleep, such a thread can move, or one that
      holds the mutex can go on to unlock it. */
  lemma NoDeadlock(states: seq<State>, schedule: seq<(Tid, Step)>, n: nat, t: Tid)
    requires IsRun(states, schedule) && n <= |schedule| && t < |states[n].pc| && Active(states[n].pc[t])
    ensures exists u: Tid :: u < |states[n].pc| && (Active(states[n].pc[u]) || states[n].pc[u] == Inside)
                             && Enabled(states[n], u, Moves(Unlock))
  {
    RunInv(states, schedule, n);
    var u := WaitsEnd(states[n], t);
    assert Enabled(states[n], u, Moves(Unlock));
  }

  // ----- in place

  /** The wrapped mutex, with its two locks and the threads' program points updated where they stand. */
  class WrappedMutex {
    var lock: Option<Tid>
    var posix: Option<Tid>
    const pc: array<Pc>

    function View(): State
      reads this, pc
    {
      State(lock, posix, pc[..])
    }

    constructor (threads: nat)
      ensures fresh(pc) && View() == Init(threads) && Inv(View())
    {
      lock, posix := None, None;
      pc := new Pc[threads](_ => Outside);
    }

    /** One call of the pthread library by thread `t`. */
    method Step(t: Tid, step: Step)
      requires Inv(View()) && Enabled(View(), t, step)
      modifies this, pc
      ensures View() == Next(old(View()), t, step) && Inv(View())
    {
      ghost var before := View();
      StepKeepsInv(before, t, step);
      if step.Wakes? {
        pc[t] := Reacquire;
        return;
      }
      match pc[t]
      case Outside =>
        if step.call == Lock {
          pc[t] := WantLock;
        } else if lock == None {
          lock, pc[t] := Some(t), SpinPosix;
        }
      case WantLock => lock, pc[t] := Some(t), WantPosix;
      case WantPosix => posix, pc[t] := Some(t), Inside;
      case SpinPosix => posix, pc[t] := Some(t), Inside;
      case Inside =>
        if step.call == Unlock {
          posix, pc[t] := None, Unlocking;
        } else {
          pc[t] := WaitUnlock;
        }
      case Unlocking => lock, pc[t] := None, Outside;
      case WaitUnlock => lock, pc[t] := None, WaitSleep;
      case WaitSleep => posix, pc[t] := None, Asleep;
      case Reacquire => posix, pc[t] := Some(t), WaitRelease;
      case WaitRelease => posix, pc[t] := None, WaitLock;
      case WaitLock => lock, pc[t] := Some(t), WaitPosix;
      case WaitPosix => posix, pc[t] := Some(t), Inside;
    }
  }
}

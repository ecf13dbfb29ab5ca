/**
 The pthread wrapper under COND_VAR, call by call: which of the two locks a caller takes and gives up, in
 which order, what it holds when it comes back, and after how many steps of its own that is
 (litl/src/pthreadinterpose.c, lines 56-91 and 110-145).
 */
module TwoLockCalls {
  import opened Options
  import opened TwoLockWait

  /** Which of `lock` and `posix_lock` a thread holds. */
  datatype Held = Held(lock: bool, posix: bool)

  const NEITHER := Held(false, false)
  const OUTER := Held(true, false)
  const POSIX := Held(false, true)
  const BOTH := Held(true, true)

  function Holds(s: State, t: Tid): Held { Held(s.lock == Some(t), s.posix == Some(t)) }

  predicate AtRest(p: Pc) { p == Outside || p == Inside }

  /** Step `a` is thread `t`'s call of `call`. */
  ghost predicate Calls(states: seq<State>, schedule: seq<(Tid, Step)>, a: nat, t: Tid, call: Call)
    requires IsRun(states, schedule) && a < |schedule|
  {
    && schedule[a] == (t, Moves(call)) && t < |states[a].pc|
    && states[a].pc[t] == (if call == Lock || call == TryLock then Outside else Inside)
  }

  /** `t` is in a call in all states after `a` and before `n`. */
  ghost predicate Busily(states: seq<State>, a: nat, n: nat, t: Tid)
    requires n <= |states|
  {
    forall k :: a < k < n ==> t < |states[k].pc| && !AtRest(states[k].pc[t])
  }

  /** What `t` holds from state `a` to state `n`, each change noted once. */
  function History(states: seq<State>, a: nat, n: nat, t: Tid): (h: seq<Held>)
    requires a <= n < |states|
    ensures h != [] && h[|h| - 1] == Holds(states[n], t)
  {
    if n == a then [Holds(states[a], t)]
    else
      var h := History(states, a, n - 1, t);
      if Holds(states[n], t) == h[|h| - 1] then h else h + [Holds(states[n], t)]
  }

  function OwnSteps(schedule: seq<(Tid, Step)>, a: nat, n: nat, t: Tid): nat
    requires a <= n <= |schedule|
  {
    if n == a then 0 else OwnSteps(schedule, a, n - 1, t) + if schedule[n - 1].0 == t then 1 else 0
  }

  // ----- what the calls promise

  /** What a thread holds one after the other in a whole call that takes or gives up the mutex. */
  function Promised(call: Call): seq<Held> {
    match call
    case Lock => [NEITHER, OUTER, BOTH]
    case TryLock => [NEITHER, OUTER, BOTH]
    case Unlock => [BOTH, OUTER, NEITHER]
    case Wait => [BOTH, POSIX, NEITHER, POSIX, NEITHER, OUTER, BOTH]
  }

  /** How many steps of its own a whole call takes; the wakeup that ends the sleep counts as one. */
  function CallLength(call: Call): nat {
    match call
    case Lock => 3
    case TryLock => 2
    case Unlock => 2
    case Wait => 8
  }

  /** How far a call has come at `p`: its own steps so far, and how much of what it promises it has been
      through. */
  function Progress(call: Call, p: Pc): Option<(nat, nat)> {
    match call
    case Lock => (
      match p
      case WantLock => Some((1, 1))
      case WantPosix => Some((2, 2))
      case Inside => Some((3, 3))
      case _ => None
    )
    case TryLock => (
      match p
      case SpinPosix => Some((1, 2))
      case Inside => Some((2, 3))
      case _ => None
    )
    case Unlock => (
      match p
      case Unlocking => Some((1, 2))
      case Outside => Some((2, 3))
      case _ => None
    )
    case Wait => (
      match p
      case WaitUnlock => Some((1, 1))
      case WaitSleep => Some((2, 2))
      case Asleep => Some((3, 3))
      case Reacquire => Some((4, 3))
      case WaitRelease => Some((5, 4))
      case WaitLock => Some((6, 5))
      case WaitPosix => Some((7, 6))
      case Inside => Some((8, 7))
      case _ => None
    )
  }

  /** `t` has come as far in `call` as its program point says. */
  ghost predicate OnTheWay(states: seq<State>, schedule: seq<(Tid, Step)>, a: nat, n: nat, t: Tid, call: Call)
    requires IsRun(states, schedule) && a < n <= |schedule|
  {
    && t < |states[n].pc|
    && var progress := Progress(call, states[n].pc[t]);
       && progress.Some?
       && OwnSteps(schedule, a, n, t) == progress.value.0
       && progress.value.1 <= |Promised(call)|
       && History(states, a, n, t) == Promised(call)[..progress.value.1]
  }

  lemma CallerBegins(s: State, t: Tid, call: Call)
    requires Inv(s) && Enabled(s, t, Moves(call)) && AtRest(s.pc[t]) && !(call == TryLock && s.lock.Some?)
    ensures var s' := Next(s, t, Moves(call));
            && t < |s'.pc| && Progress(call, s'.pc[t]).Some? && Progress(call, s'.pc[t]).value.0 == 1
            && Promised(call)[0] == Holds(s, t)
            && (if Holds(s', t) == Holds(s, t) then Progress(call, s'.pc[t]).value.1 == 1
                else Progress(call, s'.pc[t]).value.1 == 2 && Promised(call)[1] == Holds(s', t))
  {
    assert ThreadOk(s, t);
    assert Inv(Next(s, t, Moves(call))) by { StepKeepsInv(s, t, Moves(call)); }
    assert ThreadOk(Next(s, t, Moves(call)), t);
  }

  lemma CallerGoesOn(s: State, t: Tid, step: Step, call: Call)
    requires Inv(s) && Enabled(s, t, step) && !AtRest(s.pc[t]) && Progress(call, s.pc[t]).Some?
    ensures var s' := Next(s, t, step);
            && t < |s'.pc| && Progress(call, s'.pc[t]).Some?
            && var (steps, n) := Progress(call, s.pc[t]).value;
               var (steps', n') := Progress(call, s'.pc[t]).value;
               && steps' == steps + 1 && n <= n' <= |Promised(call)|
               && (if Holds(s', t) == Holds(s, t) then n' == n
                   else n' == n + 1 && Promised(call)[n] == Holds(s', t))
  {
    assert ThreadOk(s, t);
    MoverStaysOk(s, t, step);
  }

  lemma OthersHoldOn(s: State, u: Tid, step: Step, t: Tid)
    requires Inv(s) && Enabled(s, u, step) && u != t && t < |s.pc|
    ensures var s' := Next(s, u, step); t < |s'.pc| && s'.pc[t] == s.pc[t] && Holds(s', t) == Holds(s, t)
  {
    assert ThreadOk(s, u) && ThreadOk(s, t);
  }

  /** One step of the caller, or of somebody else. */
  ghost predicate Advances(states: seq<State>, schedule: seq<(Tid, Step)>, n: nat, t: Tid, call: Call)
    requires IsRun(states, schedule) && n < |schedule|
  {
    && t < |states[n].pc| && t < |states[n + 1].pc|
    && Progress(call, states[n].pc[t]).Some? && Progress(call, states[n + 1].pc[t]).Some?
    && var (steps, k) := Progress(call, states[n].pc[t]).value;
       var (steps', k') := Progress(call, states[n + 1].pc[t]).value;
       && steps' == steps + (if schedule[n].0 == t then 1 else 0) && k <= k' <= |Promised(call)|
       && (if Holds(states[n + 1], t) == Holds(states[n], t) then k' == k
           else k' == k + 1 && Promised(call)[k] == Holds(states[n + 1], t))
  }

  lemma StepAdvances(states: seq<State>, schedule: seq<(Tid, Step)>, n: nat, t: Tid, call: Call)
    requires IsRun(states, schedule) && n < |schedule| && t < |states[n].pc| && !AtRest(states[n].pc[t])
    requires Progress(call, states[n].pc[t]).Some?
    ensures Advances(states, schedule, n, t, call)
  {
    RunInv(states, schedule, n);
    assert StepsAt(states, schedule, n);
    if schedule[n].0 == t {
      CallerGoesOn(states[n], t, schedule[n].1, call);
    } else {
      OthersHoldOn(states[n], schedule[n].0, schedule[n].1, t);
    }
  }

  lemma {:induction false} CallGoesOn(states: seq<State>, schedule: seq<(Tid, Step)>, a: nat, n: nat, t: Tid, call: Call)
    requires IsRun(states, schedule) && a < n <= |schedule| && Calls(states, schedule, a, t, call)
    requires Busily(states, a, n, t) && !(call == TryLock && states[a].lock.Some?)
    ensures OnTheWay(states, schedule, a, n, t, call)
  {
    if n == a + 1 {
      RunInv(states, schedule, a);
      assert StepsAt(states, schedule, a);
      CallerBegins(states[a], t, call);
    } else {
      CallGoesOn(states, schedule, a, n - 1, t, call);
      StepAdvances(states, schedule, n - 1, t, call);
    }
  }

  // ----- whole calls

  /** Where a call ends, and with what. */
  predicate Back(s: State, t: Tid, call: Call, taken: bool) {
    && t < |s.pc|
    && match call
       case Lock => s.pc[t] == Inside && Holds(s, t) == BOTH
       case TryLock => if taken then s.pc[t] == Inside && Holds(s, t) == BOTH
                       else s.pc[t] == Outside && Holds(s, t) == NEITHER
       case Unlock => s.pc[t] == Outside && Holds(s, t) == NEITHER
       case Wait => s.pc[t] == Inside && Holds(s, t) == BOTH
  }

  /** Over a whole call in any run: a lock and a wait come back with both locks, an unlock with neither, and
      a trylock with both if and only if `lock` is free when it tries. */
  lemma CallReturns(states: seq<State>, schedule: seq<(Tid, Step)>, a: nat, n: nat, t: Tid, call: Call)
    requires IsRun(states, schedule) && a < n <= |schedule| && Calls(states, schedule, a, t, call)
    requires Busily(states, a, n, t) && t < |states[n].pc| && AtRest(states[n].pc[t])
    ensures Back(states[n], t, call, states[a].lock == None)
  {
    RunInv(states, schedule, n);
    assert ThreadOk(states[n], t);
    if call == TryLock && states[a].lock.Some? {
      assert StepsAt(states, schedule, a);
      assert states[a + 1] == states[a];
    } else {
      CallGoesOn(states, schedule, a, n, t, call);
    }
  }

  /** On the way it takes and gives up the locks in the order promised, one at a time: `lock` before
      `posix_lock` when it enters, `posix_lock` before `lock` when it leaves, and a wait gives up `lock`,
      then `posix_lock`, takes and gives up `posix_lock`, and takes `lock` and `posix_lock` again. */
  lemma LocksInOrder(states: seq<State>, schedule: seq<(Tid, Step)>, a: nat, n: nat, t: Tid, call: Call)
    requires IsRun(states, schedule) && a < n <= |schedule| && Calls(states, schedule, a, t, call)
    requires Busily(states, a, n, t) && t < |states[n].pc|
    ensures if call == TryLock && states[a].lock.Some? then n == a + 1 && History(states, a, n, t) == [NEITHER]
            else History(states, a, n, t) <= Promised(call)
                 && (AtRest(states[n].pc[t]) ==> History(states, a, n, t) == Promised(call))
  {
    if call == TryLock && states[a].lock.Some? {
      RunInv(states, schedule, a);
      assert ThreadOk(states[a], t);
      assert StepsAt(states, schedule, a);
      assert states[a + 1] == states[a];
    } else {
      CallGoesOn(states, schedule, a, n, t, call);
    }
  }

  /** A wait comes back only after it has slept, holding neither lock. */
  lemma WaitHasSlept(states: seq<State>, schedule: seq<(Tid, Step)>, a: nat, n: nat, t: Tid) returns (k: nat)
    requires IsRun(states, schedule) && a < n <= |schedule| && Calls(states, schedule, a, t, Wait)
    requires Busily(states, a, n, t) && t < |states[n].pc|
    requires states[n].pc[t] == Inside
    ensures a < k < n && t < |states[k].pc| && states[k].pc[t] == Asleep && Holds(states[k], t) == NEITHER
  {
    k := SleepOnTheWay(states, schedule, a, n, t);
    RunInv(states, schedule, k);
    assert ThreadOk(states[k], t);
  }

  lemma {:induction false} SleepOnTheWay(states: seq<State>, schedule: seq<(Tid, Step)>, a: nat, n: nat, t: Tid) returns (k: nat)
    requires IsRun(states, schedule) && a < n <= |schedule| && Calls(states, schedule, a, t, Wait)
    requires Busily(states, a, n, t) && t < |states[n].pc| && Progress(Wait, states[n].pc[t]).Some?
    requires Progress(Wait, states[n].pc[t]).value.0 >= 3
    ensures a < k <= n && t < |states[k].pc| && states[k].pc[t] == Asleep
  {
    k := n;
    if states[n].pc[t] != Asleep {
      if n == a + 1 {
        RunInv(states, schedule, a);
        assert StepsAt(states, schedule, a);
        CallerBegins(states[a], t, Wait);
      } else {
        CallGoesOn(states, schedule, a, n - 1, t, Wait);
        StepAdvances(states, schedule, n - 1, t, Wait);
        k := SleepOnTheWay(states, schedule, a, n - 1, t);
      }
    }
  }

  /** A call is over after exactly so many steps of its own: 3 for a lock, 2 for an unlock, 8 for a wait, and
      2 for a trylock, or 1 if `lock` is not free.  Until then it has made fewer. */
  lemma CallIsOver(states: seq<State>, schedule: seq<(Tid, Step)>, a: nat, n: nat, t: Tid, call: Call)
    requires IsRun(states, schedule) && a < n <= |schedule| && Calls(states, schedule, a, t, call)
    requires Busily(states, a, n, t) && t < |states[n].pc|
    ensures var total := if call == TryLock && states[a].lock.Some? then 1 else CallLength(call);
            OwnSteps(schedule, a, n, t) <= total && (AtRest(states[n].pc[t]) <==> OwnSteps(schedule, a, n, t) == total)
  {
    if call == TryLock && states[a].lock.Some? {
      assert StepsAt(states, schedule, a);
      assert states[a + 1] == states[a];
      assert OwnSteps(schedule, a, a, t) == 0;
    } else {
      CallGoesOn(states, schedule, a, n, t, call);
    }
  }
}

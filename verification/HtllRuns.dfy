/**
 What the invariant means for whole runs of the HTLL step system, stated on the history of the
 run: who entered and left which mutex, how many unlocks took the slow path.
 */
module HtllRuns {
  import opened LockWord
  import opened Options
  import opened HtllModel
  import opened HtllSafety

  lemma InitInv(mutexes: nat, conds: nat, threads: nat)
    ensures Inv(Init(mutexes, conds, threads))
  {
    var s := Init(mutexes, conds, threads);
    forall m: Mid | HasMutex(s, m) ensures MutexOk(s, m) { assert s.mx[m] == FreshMutex(); }
    forall c: Cid | HasCond(s, c) ensures CondOk(s, c) { assert s.cv[c] == FreshCond(); }
  }

  ghost predicate FreshRun(states: seq<State>, events: seq<Event>) {
    IsRun(states, events) && StartsFresh(states[0])
  }

  lemma {:induction false} RunInv(states: seq<State>, events: seq<Event>, i: nat)
    requires FreshRun(states, events) && i <= |events|
    ensures Inv(states[i])
  {
    if i == 0 {
      var ms: nat, cs: nat, ts: nat :| states[0] == Init(ms, cs, ts);
      InitInv(ms, cs, ts);
    } else {
      RunInv(states, events, i - 1);
      var e := events[i - 1];
      assert StepAt(states, events, i - 1);
      StepKeepsInv(states[i - 1], e.t, e.ch);
    }
  }

  lemma RunEvolves(states: seq<State>, events: seq<Event>, i: nat)
    requires FreshRun(states, events) && i < |events|
    ensures Inv(states[i]) && Inv(states[i + 1])
    ensures IsStep(states[i], events[i], states[i + 1])
    ensures Evolves(states[i], states[i + 1], events[i].t)
  {
    RunInv(states, events, i);
    RunInv(states, events, i + 1);
    assert StepAt(states, events, i);
    StepEvolves(states[i], events[i].t, events[i].ch);
  }

  /** The sizes of a run's states never change. */
  lemma {:induction false} RunShape(states: seq<State>, events: seq<Event>, i: nat, j: nat)
    requires FreshRun(states, events) && i <= j <= |events|
    ensures |states[j].mx| == |states[i].mx| && |states[j].cv| == |states[i].cv|
    ensures |states[j].pc| == |states[i].pc|
  {
    if i < j {
      RunShape(states, events, i, j - 1);
      RunEvolves(states, events, j - 1);
    }
  }

  /** A run goes on with any enabled step. */
  lemma Extend(states: seq<State>, events: seq<Event>, t: Tid, ch: Choice)
    requires FreshRun(states, events) && Enabled(states[|events|], t, ch)
    ensures FreshRun(states + [Next(states[|events|], t, ch)], events + [Event(t, ch)])
  {
    var states', events' := states + [Next(states[|events|], t, ch)], events + [Event(t, ch)];
    forall i | 0 <= i < |events'| ensures StepAt(states', events', i) {
      if i < |events| { assert StepAt(states, events, i); }
    }
  }

  // ----- mutual exclusion, by history

  /** Is `p` in a call that acquires mutex `m` when it returns 0 (or ETIMEDOUT, from a wait)? */
  predicate Acquiring(p: Pc, m: Mid) {
    match p
    case Spin(m', _, _) => m' == m
    case Mark(m', _) => m' == m
    case Remark(m', _) => m' == m
    case TryOnce(m') => m' == m
    case _ => false
  }

  /** Step `i` returns to thread `t` as the new holder of `m`. */
  ghost predicate Enters(states: seq<State>, events: seq<Event>, i: nat, t: Tid, m: Mid)
    requires IsRun(states, events) && i < |events|
  {
    && events[i].t == t
    && t < |states[i].pc| && t < |states[i + 1].pc|
    && Acquiring(states[i].pc[t], m)
    && (states[i + 1].pc[t] == Idle(Ok) || states[i + 1].pc[t] == Idle(TimedOut))
  }

  /** Step `i` is the access with which thread `t`'s unlock of `m` frees the lock byte. */
  ghost predicate Leaves(states: seq<State>, events: seq<Event>, i: nat, t: Tid, m: Mid)
    requires IsRun(states, events) && i < |events|
  {
    && events[i].t == t
    && t < |states[i].pc|
    && states[i].pc[t].Unlocking? && states[i].pc[t].m == m && HasMutex(states[i], m)
    && (states[i].pc[t].at.Release? || (states[i].pc[t].at.Cas? && states[i].mx[m].w.U() == 1))
  }

  lemma EnteringTakes(s: State, t: Tid, ch: Choice, m: Mid)
    requires Inv(s) && Enabled(s, t, ch) && Acquiring(s.pc[t], m)
    requires Next(s, t, ch).pc[t] in {Idle(Ok), Idle(TimedOut)}
    ensures HasMutex(s, m) && s.mx[m].owner == None && Owns(Next(s, t, ch), t, m)
  {
    assert ThreadOk(s, t) && MutexOk(s, m);
  }

  lemma OnlyLeavingFrees(s: State, t: Tid, ch: Choice, m: Mid)
    requires Inv(s) && Enabled(s, t, ch) && HasMutex(s, m)
    requires s.mx[m].owner.Some? && Next(s, t, ch).mx[m].owner != s.mx[m].owner
    ensures s.mx[m].owner == Some(t) && s.pc[t].Unlocking? && s.pc[t].m == m
    ensures s.pc[t].at.Release? || (s.pc[t].at.Cas? && s.mx[m].w.U() == 1)
  {
    assert ThreadOk(s, t);
    StepEvolves(s, t, ch);
    assert WordOk(s.mx[m]);
  }

  lemma {:induction false} HolderStays(states: seq<State>, events: seq<Event>, i: nat, j: nat, t: Tid, m: Mid)
    requires FreshRun(states, events) && i <= j <= |events| && Owns(states[i], t, m)
    requires forall k :: i <= k < j ==> !Leaves(states, events, k, t, m)
    ensures Owns(states[j], t, m)
  {
    if i < j {
      HolderStays(states, events, i, j - 1, t, m);
      RunEvolves(states, events, j - 1);
      if !Owns(states[j], t, m) {
        OnlyLeavingFrees(states[j - 1], events[j - 1].t, events[j - 1].ch, m);
        assert Leaves(states, events, j - 1, t, m);
      }
    }
  }

  /** Mutual exclusion: between two entries into `m`, by whichever threads and whichever calls, the
      first to enter has left. */
  lemma MutualExclusion(states: seq<State>, events: seq<Event>, i: nat, j: nat, t: Tid, t': Tid, m: Mid)
    requires FreshRun(states, events) && i < j < |events|
    requires Enters(states, events, i, t, m) && Enters(states, events, j, t', m)
    ensures exists k :: i < k < j && Leaves(states, events, k, t, m)
  {
    RunEvolves(states, events, i);
    RunEvolves(states, events, j);
    EnteringTakes(states[i], t, events[i].ch, m);
    EnteringTakes(states[j], t', events[j].ch, m);
    if forall k :: i + 1 <= k < j ==> !Leaves(states, events, k, t, m) {
      HolderStays(states, events, i + 1, j, t, m);
      assert false;
    }
  }

  lemma FreshOwnsNothing(s: State, t: Tid, m: Mid)
    requires StartsFresh(s)
    ensures !Owns(s, t, m)
  {
    var ms: nat, cs: nat, ts: nat :| s == Init(ms, cs, ts);
    if HasMutex(s, m) { assert s.mx[m] == FreshMutex(); }
  }

  /** `t` entered `m` before step `j` and has not left it since. */
  ghost predicate HoldsSince(states: seq<State>, events: seq<Event>, i: nat, j: nat, t: Tid, m: Mid)
    requires IsRun(states, events) && j <= |events|
  {
    i < j && Enters(states, events, i, t, m) && forall k :: i < k < j ==> !Leaves(states, events, k, t, m)
  }

  lemma NewOwnerEnters(states: seq<State>, events: seq<Event>, i: nat, t: Tid, m: Mid)
    requires FreshRun(states, events) && i < |events|
    requires Owns(states[i + 1], t, m) && !Owns(states[i], t, m)
    ensures Enters(states, events, i, t, m)
  {
    RunEvolves(states, events, i);
    assert AtomicStep(states[i].mx[m].owner, states[i + 1].mx[m].owner, events[i].t);
    TakingEnters(states[i], t, events[i].ch, m);
  }

  lemma OwnerHasNotLeft(states: seq<State>, events: seq<Event>, i: nat, t: Tid, m: Mid)
    requires FreshRun(states, events) && i < |events| && Owns(states[i + 1], t, m)
    ensures !Leaves(states, events, i, t, m)
  {
    RunEvolves(states, events, i);
    if Leaves(states, events, i, t, m) { LeavingFrees(states[i], t, events[i].ch, m); }
  }

  lemma {:induction false} OwnerEntered(states: seq<State>, events: seq<Event>, j: nat, t: Tid, m: Mid)
      returns (i: nat)
    requires FreshRun(states, events) && j <= |events| && Owns(states[j], t, m)
    ensures HoldsSince(states, events, i, j, t, m)
  {
    FreshOwnsNothing(states[0], t, m);
    if Owns(states[j - 1], t, m) {
      i := OwnerEntered(states, events, j - 1, t, m);
      OwnerHasNotLeft(states, events, j - 1, t, m);
    } else {
      i := j - 1;
      NewOwnerEnters(states, events, i, t, m);
    }
  }

  /** The lock byte is 1 exactly while some thread has entered and not left. */
  lemma LockedMeansHeld(states: seq<State>, events: seq<Event>, j: nat, m: Mid)
    requires FreshRun(states, events) && j <= |events| && HasMutex(states[j], m)
    ensures states[j].mx[m].w.locked == LOCKED <==> exists t: Tid, i: nat :: HoldsSince(states, events, i, j, t, m)
    ensures states[j].mx[m].w.U() in {0, 1, 256, 257}
  {
    RunInv(states, events, j);
    assert MutexOk(states[j], m);
    FourValuesAsU(states[j].mx[m].w);
    if states[j].mx[m].owner.Some? {
      var i := OwnerEntered(states, events, j, states[j].mx[m].owner.value, m);
    }
    if t: Tid, i: nat :| HoldsSince(states, events, i, j, t, m) {
      RunEvolves(states, events, i);
      EnteringTakes(states[i], t, events[i].ch, m);
      HolderStays(states, events, i + 1, j, t, m);
    }
  }

  lemma TakingEnters(s: State, t: Tid, ch: Choice, m: Mid)
    requires Inv(s) && Enabled(s, t, ch) && HasMutex(s, m) && HasMutex(Next(s, t, ch), m)
    requires s.mx[m].owner == None && Next(s, t, ch).mx[m].owner == Some(t)
    ensures t < |Next(s, t, ch).pc| && Acquiring(s.pc[t], m)
    ensures Next(s, t, ch).pc[t] in {Idle(Ok), Idle(TimedOut)}
  {
    assert ThreadOk(s, t) && MutexOk(s, m);
  }

  lemma LeavingFrees(s: State, t: Tid, ch: Choice, m: Mid)
    requires Inv(s) && Enabled(s, t, ch) && HasMutex(s, m)
    requires s.pc[t].Unlocking? && s.pc[t].m == m
    requires s.pc[t].at.Release? || (s.pc[t].at.Cas? && s.mx[m].w.U() == 1)
    ensures Next(s, t, ch).mx[m].owner == None && s.mx[m].owner == Some(t)
  {
    assert ThreadOk(s, t);
  }

  /** `trylock` refuses exactly when the mutex is held. */
  lemma TrylockRefusesIffHeld(s: State, t: Tid, ch: Choice, m: Mid)
    requires Inv(s) && Enabled(s, t, ch) && s.pc[t] == TryOnce(m)
    ensures var s' := Next(s, t, ch);
            && HasMutex(s, m) && HasMutex(s', m)
            && (s.mx[m].owner.Some? ==> s'.pc[t] == Idle(Busy) && s'.mx == s.mx)
            && (s.mx[m].owner.None? ==> s'.pc[t] == Idle(Ok) && Owns(s', t, m)
                                        && s'.mx[m].w.contended == s.mx[m].w.contended)
  {
    assert MutexOk(s, m);
    if s.mx[m].owner.Some? { assert Next(s, t, ch).mx[m] == s.mx[m]; }
  }

  // ----- the unprotected counters

  /** How many of the first `n` steps are the store of `m->cnt_unlock++`, that is, how many unlocks
      of `m` took the slow path. */
  ghost function SlowUnlocks(states: seq<State>, events: seq<Event>, n: nat, m: Mid): nat
    requires IsRun(states, events) && n <= |events|
  {
    if n == 0 then 0
    else SlowUnlocks(states, events, n - 1, m) + if UnlocksAt(states, events, n - 1, m, true) then 1 else 0
  }

  /** How many of the first `n` steps run `adjust_spin_ticks(m)`. */
  ghost function Adjustments(states: seq<State>, events: seq<Event>, n: nat, m: Mid): nat
    requires IsRun(states, events) && n <= |events|
  {
    if n == 0 then 0
    else Adjustments(states, events, n - 1, m) + if UnlocksAt(states, events, n - 1, m, false) then 1 else 0
  }

  ghost predicate UnlocksAt(states: seq<State>, events: seq<Event>, i: nat, m: Mid, storing: bool)
    requires IsRun(states, events) && i < |events|
  {
    && events[i].t < |states[i].pc|
    && var p := states[i].pc[events[i].t];
       p.Unlocking? && p.m == m && (if storing then p.at.Store? else p.at.Adjust?)
  }

  lemma StepCounts(s: State, t: Tid, ch: Choice, m: Mid)
    requires Inv(s) && Enabled(s, t, ch) && HasMutex(s, m)
    ensures HasMutex(Next(s, t, ch), m)
    ensures var x, x' := s.mx[m], Next(s, t, ch).mx[m];
            var here := s.pc[t].Unlocking? && s.pc[t].m == m;
            && x'.slow == x.slow + (if here && s.pc[t].at.Store? then 1 else 0)
            && x'.adjusts == x.adjusts + (if here && s.pc[t].at.Adjust? then 1 else 0)
  {
    if Locking(s.pc[t]) { assert WordOk(s.mx[m]); LockStepWord(s, t, ch, m); }
  }

  lemma {:induction false} HistoryCounts(states: seq<State>, events: seq<Event>, n: nat, m: Mid)
    requires FreshRun(states, events) && n <= |events| && HasMutex(states[n], m)
    ensures states[n].mx[m].slow == SlowUnlocks(states, events, n, m)
    ensures states[n].mx[m].adjusts == Adjustments(states, events, n, m)
  {
    if n == 0 {
      var ms: nat, cs: nat, ts: nat :| states[0] == Init(ms, cs, ts);
      assert states[0].mx[m] == FreshMutex();
    } else {
      RunShape(states, events, n - 1, n);
      HistoryCounts(states, events, n - 1, m);
      RunEvolves(states, events, n - 1);
      StepCounts(states[n - 1], events[n - 1].t, events[n - 1].ch, m);
    }
  }

  /** `cnt_unlock++` is not atomic, yet the counter is exact modulo 2^32; and the spin budget is
      adjusted once for every 2048 slow unlocks, the last adjustment being at most still to run. */
  lemma CounterIsExact(states: seq<State>, events: seq<Event>, n: nat, m: Mid)
    requires FreshRun(states, events) && n <= |events| && HasMutex(states[n], m)
    ensures states[n].mx[m].cntUnlock == SlowUnlocks(states, events, n, m) % UINT
    ensures Adjustments(states, events, n, m) + (if Owed(states[n], m) then 1 else 0)
         == SlowUnlocks(states, events, n, m) / 2048
  {
    RunInv(states, events, n);
    HistoryCounts(states, events, n, m);
    assert MutexOk(states[n], m);
  }

  /** Where the spin budget is after `slow` slow unlocks, if nothing has wrapped around. */
  predicate InEnvelope(ticks: int, slow: nat) {
    var a := slow / ADJUST_PERIOD;
    ticks % 256 == 0 && 8192 - 256 * a <= ticks <= 8192 + 512 * a
  }

  /** Whatever the racy reads of `cnt_wake` return, the spin budget stays within an envelope for as
      long as there are at most 32 adjustments, so for the first 33 * 2048 - 1 slow unlocks. */
  lemma SpinBudgetEnvelope(states: seq<State>, events: seq<Event>, n: nat, m: Mid)
    requires FreshRun(states, events) && n <= |events| && HasMutex(states[n], m)
    requires SlowUnlocks(states, events, n, m) < 33 * ADJUST_PERIOD
    ensures InEnvelope(states[n].mx[m].ticks, SlowUnlocks(states, events, n, m))
  {
    CounterIsExact(states, events, n, m);
    HistoryCounts(states, events, n, m);
    RunInv(states, events, n);
    assert MutexOk(states[n], m);
  }

  // ----- the condition variable

  /** Once a condition variable is bound to a mutex, it is bound to it for the rest of the run. */
  lemma {:induction false} BindingIsForever(states: seq<State>, events: seq<Event>, i: nat, j: nat, c: Cid)
    requires FreshRun(states, events) && i <= j <= |events|
    requires HasCond(states[i], c) && states[i].cv[c].m.Some?
    ensures HasCond(states[j], c) && states[j].cv[c].m == states[i].cv[c].m
  {
    if i < j {
      BindingIsForever(states, events, i, j - 1, c);
      RunEvolves(states, events, j - 1);
    }
  }

  /** Waiters use the mutex that the condition variable is bound to, and whoever sleeps on a mutex
      futex, by its own call or because a broadcast moved it there, will re-acquire that mutex. */
  lemma SleepersMatchBinding(states: seq<State>, events: seq<Event>, n: nat, t: Tid)
    requires FreshRun(states, events) && n <= |events| && t < |states[n].pc|
    ensures var p := states[n].pc[t];
            && (p.CondAsleep? ==> BoundTo(states[n], p.c, p.m) && t in states[n].cv[p.c].q)
            && (p.Asleep? ==> p.addr == p.m)
            && forall c: Cid :: HasCond(states[n], c) && states[n].cv[c].m.None? ==> states[n].cv[c].q == []
  {
    RunInv(states, events, n);
    var s := states[n];
    assert ThreadOk(s, t);
    forall c: Cid | HasCond(s, c) && s.cv[c].q != [] ensures s.cv[c].m.Some? {
      assert CondOk(s, c) && ThreadOk(s, s.cv[c].q[0]);
    }
  }

  /** Is `p` in a condition wait that was called with mutex `m`? */
  predicate WaitingWith(p: Pc, m: Mid) {
    match p
    case Binding(_, _, m', _, k) => m' == m && k != InLock
    case Unlocking(_, m', next) => m' == m && next.ToSleep? && next.k != InLock
    case CondCall(_, m', _, k) => m' == m && k != InLock
    case CondAsleep(_, m', _, k) => m' == m && k != InLock
    case Remark(m', k) => m' == m && k != InLock
    case WaitCall(m', k) => m' == m && k != InLock
    case Asleep(_, m', k) => m' == m && k != InLock
    case _ => false
  }

  lemma WaitSurvivesOthers(s: State, u: Tid, ch: Choice, t: Tid, m: Mid)
    requires Inv(s) && Enabled(s, u, ch) && t < |s.pc| && t != u && WaitingWith(s.pc[t], m)
    ensures t < |Next(s, u, ch).pc| && WaitingWith(Next(s, u, ch).pc[t], m)
  {
    StepEvolves(s, u, ch);
    assert Bystander(s.pc[t], Next(s, u, ch).pc[t], s);
  }

  /** A wait before its sleep: it fails with EINVAL only while it finds the condition variable bound to
      another mutex. */
  lemma BindingStep(s: State, t: Tid, ch: Choice, m: Mid)
    requires ThreadAt(s, t) && s.pc[t].Binding? && WaitingWith(s.pc[t], m)
    ensures var p, s' := s.pc[t], WaitStep(s, t, ch);
            && t < |s'.pc|
            && (WaitingWith(s'.pc[t], m) || (s'.pc[t].Idle? && Owns(s', t, m)))
            && (s'.pc[t] == Idle(Inval) ==> Owns(s, t, m) && s.cv[p.c].m.Some? && !BoundTo(s, p.c, m))
            && (!s'.pc[t].Binding? && s'.pc[t] != Idle(Inval) ==> BoundTo(s', p.c, m))
            && (s'.pc[t].Binding? ==> s'.pc[t].c == p.c)
  {
  }

  predicate ThreadAt(s: State, t: Tid) { t < |s.pc| && ThreadOk(s, t) }

  lemma UnlockingWaitStep(s: State, t: Tid, ch: Choice, m: Mid)
    requires ThreadAt(s, t) && s.pc[t].Unlocking? && WaitingWith(s.pc[t], m)
    ensures t < |UnlockStep(s, t, ch).pc| && WaitingWith(UnlockStep(s, t, ch).pc[t], m)
  {
  }

  /** A waiter that is awake again returns with the mutex, or goes on waiting. */
  lemma RelockingWaitStep(s: State, t: Tid, ch: Choice, m: Mid)
    requires ThreadAt(s, t) && Locking(s.pc[t]) && WaitingWith(s.pc[t], m)
    ensures var s' := LockStep(s, t, ch);
            && t < |s'.pc|
            && (WaitingWith(s'.pc[t], m) || (s'.pc[t].Idle? && s'.pc[t].code != Inval && Owns(s', t, m)))
  {
  }

  /** A wait stays a wait with the same mutex until it returns, whoever else moves (lemma
      WaitSurvivesOthers); and it returns holding that mutex, be it for EINVAL, a timeout or a wakeup.
      It fails with EINVAL exactly when it finds the condition variable bound to another mutex, and
      then it has never released its own. */
  lemma WaitReturnsHolding(s: State, t: Tid, ch: Choice, m: Mid)
    requires Inv(s) && Enabled(s, t, ch) && WaitingWith(s.pc[t], m)
    ensures var p, s' := s.pc[t], Next(s, t, ch);
            && t < |s'.pc|
            && (WaitingWith(s'.pc[t], m) || (s'.pc[t].Idle? && Owns(s', t, m)))
            && (s'.pc[t] == Idle(Inval) ==>
                  p.Binding? && Owns(s, t, m) && s.cv[p.c].m.Some? && !BoundTo(s, p.c, m))
            && (p.Binding? && !s'.pc[t].Binding? && s'.pc[t] != Idle(Inval) ==> BoundTo(s', p.c, m))
            && (s'.pc[t].Binding? ==> p.Binding? && s'.pc[t].c == p.c)
  {
    assert ThreadOk(s, t);
    if s.pc[t].Binding? {
      BindingStep(s, t, ch, m);
    } else if s.pc[t].Unlocking? {
      UnlockingWaitStep(s, t, ch, m);
    } else if Locking(s.pc[t]) {
      RelockingWaitStep(s, t, ch, m);
    } else if s.pc[t].CondAsleep? {
      assert CondOk(s, s.pc[t].c);
    }
  }

  /** The same for a whole call: from any point of a wait with `m` to the moment at which the thread is
      next outside a call, whatever happens in between, it comes back holding `m`. */
  lemma {:induction false} WaitCallComesBackHolding(states: seq<State>, events: seq<Event>, i: nat, j: nat, t: Tid, m: Mid)
    requires FreshRun(states, events) && i <= j <= |events| && t < |states[i].pc|
    requires WaitingWith(states[i].pc[t], m)
    requires forall k :: i <= k < j ==> t < |states[k].pc| && !states[k].pc[t].Idle?
    ensures t < |states[j].pc|
    ensures WaitingWith(states[j].pc[t], m) || (states[j].pc[t].Idle? && Owns(states[j], t, m))
  {
    if i < j {
      WaitCallComesBackHolding(states, events, i, j - 1, t, m);
      assert !states[j - 1].pc[t].Idle?;
      WaitMovesOn(states, events, j - 1, t, m);
    }
  }

  lemma WaitMovesOn(states: seq<State>, events: seq<Event>, i: nat, t: Tid, m: Mid)
    requires FreshRun(states, events) && i < |events| && t < |states[i].pc| && WaitingWith(states[i].pc[t], m)
    ensures t < |states[i + 1].pc|
    ensures WaitingWith(states[i + 1].pc[t], m) || (states[i + 1].pc[t].Idle? && Owns(states[i + 1], t, m))
  {
    RunInv(states, events, i);
    assert StepAt(states, events, i);
    var u, ch := events[i].t, events[i].ch;
    if u == t { WaitReturnsHolding(states[i], t, ch, m); } else { WaitSurvivesOthers(states[i], u, ch, t, m); }
  }
}

/**
 Single accesses of the mutex in the order in which a thread makes them: an uncontended lock and unlock
 leave no trace, a spin phase polls as often as it is allotted, an unlocker looks twice before it clears the
 mark, and a wake lets one thread go.
 */
module HtllAccesses {
  import opened LockWord
  import opened Options
  import opened HtllModel
  import opened HtllSafety
  import opened HtllRuns
  import opened HtllCalls

  // ----- without contention

  /** `t` alone makes the next steps. */
  ghost predicate Alone(states: seq<State>, events: seq<Event>, a: nat, n: nat, t: Tid)
    requires a <= n <= |events|
  {
    forall k :: a <= k < n ==> events[k].t == t
  }

  /** An uncontended lock takes the mutex with its first exchange and does not mark the word. */
  lemma UncontendedLock(states: seq<State>, events: seq<Event>, a: nat, t: Tid, m: Mid, inSegment: bool)
    requires FreshRun(states, events) && a + 2 <= |events| && Calls(states, events, a, t, OpLock(m, inSegment))
    requires Alone(states, events, a, a + 2, t) && HasMutex(states[a], m) && states[a].mx[m].w.U() == 0
    ensures t < |states[a + 2].pc| && states[a + 2].pc[t] == Idle(Ok)
    ensures states[a + 2].mx == states[a].mx[m := states[a].mx[m].(w := FromU(1), owner := Some(t))]
  {
    RunEvolves(states, events, a);
    RunEvolves(states, events, a + 1);
    assert MutexOk(states[a], m);
    assert states[a + 1] == CallStep(states[a], t, events[a].ch);
    assert states[a + 2] == LockStep(states[a + 1], t, events[a + 1].ch);
  }

  /** An uncontended unlock reads the word, swaps it back to 0, and counts nothing. */
  lemma UncontendedUnlock(states: seq<State>, events: seq<Event>, a: nat, t: Tid, m: Mid)
    requires FreshRun(states, events) && a + 3 <= |events| && Calls(states, events, a, t, OpUnlock(m))
    requires Alone(states, events, a, a + 3, t) && HasMutex(states[a], m) && states[a].mx[m].w.U() == 1
    ensures t < |states[a + 3].pc| && states[a + 3].pc[t] == Idle(Ok)
    ensures states[a + 3].mx == states[a].mx[m := states[a].mx[m].(w := FromU(0), owner := None)]
  {
    RunEvolves(states, events, a);
    RunEvolves(states, events, a + 1);
    RunEvolves(states, events, a + 2);
    assert states[a + 1] == CallStep(states[a], t, events[a].ch);
    assert states[a + 2] == UnlockStep(states[a + 1], t, events[a + 1].ch);
    assert states[a + 3] == UnlockStep(states[a + 2], t, events[a + 2].ch);
  }

  // ----- the spin phase

  /** A thread that begins to lock polls exactly as often as its phase is allotted, and at least twice,
      before it marks the word: with `fuel` spare polls it exchanges the byte `fuel + 2` times. */
  lemma {:induction false} PollsBeforeMark(states: seq<State>, events: seq<Event>, a: nat, n: nat, t: Tid, m: Mid,
                                          inSegment: bool)
    requires FreshRun(states, events) && a < n <= |events| && Calls(states, events, a, t, OpLock(m, inSegment))
    requires forall k :: a < k < n ==> t < |states[k].pc| && states[k].pc[t].Spin?
    ensures t < |states[n].pc|
    ensures match states[n].pc[t]
            case Spin(m', s, left) => m' == m && s == inSegment && OwnSteps(events, a + 1, n, t) + left == events[a].ch.fuel + 1
            case Mark(m', s) => m' == m && s == inSegment && OwnSteps(events, a + 1, n, t) == events[a].ch.fuel + 2
            case p => p == Idle(Ok)
  {
    RunEvolves(states, events, n - 1);
    if n == a + 1 {
      assert states[n] == CallStep(states[a], t, events[a].ch);
    } else {
      PollsBeforeMark(states, events, a, n - 1, t, m, inSegment);
      if events[n - 1].t == t {
        assert states[n] == LockStep(states[n - 1], t, events[n - 1].ch);
      } else {
        assert Bystander(states[n - 1].pc[t], states[n].pc[t], states[n - 1]);
      }
    }
  }

  /** The same for the phase that a thread inside a segment begins anew after its sleep: it polls at least
      twice again before it marks the word again. */
  lemma {:induction false} PollsAgainBeforeMark(states: seq<State>, events: seq<Event>, a: nat, n: nat, t: Tid, m: Mid)
    requires FreshRun(states, events) && a < n <= |events|
    requires t < |states[a].pc| && states[a].pc[t] == NapDone(m) && events[a].t == t
    requires forall k :: a < k < n ==> t < |states[k].pc| && states[k].pc[t].Spin?
    ensures t < |states[n].pc|
    ensures match states[n].pc[t]
            case Spin(m', s, left) => m' == m && s && OwnSteps(events, a + 1, n, t) + left == events[a].ch.fuel + 1
            case Mark(m', s) => m' == m && s && OwnSteps(events, a + 1, n, t) == events[a].ch.fuel + 2
            case p => p == Idle(Ok)
  {
    RunEvolves(states, events, n - 1);
    if n == a + 1 {
      assert states[n] == LockStep(states[a], t, events[a].ch);
    } else {
      PollsAgainBeforeMark(states, events, a, n - 1, t, m);
      if events[n - 1].t == t {
        assert states[n] == LockStep(states[n - 1], t, events[n - 1].ch);
      } else {
        assert Bystander(states[n - 1].pc[t], states[n].pc[t], states[n - 1]);
      }
    }
  }

  // ----- the sleep

  /** Step `i` is an exchange with which `t` marks the word of `m` and finds it held. */
  ghost predicate MarksInVain(states: seq<State>, events: seq<Event>, i: nat, t: Tid, m: Mid)
    requires IsRun(states, events) && i < |events|
  {
    && events[i].t == t && t < |states[i].pc|
    && (states[i].pc[t].Remark? || (states[i].pc[t].Mark? && states[i].pc[t].inSegment)) && states[i].pc[t].m == m
    && HasMutex(states[i], m) && states[i].mx[m].owner.Some?
  }

  /** Nobody lets `t` go on before step `n`, which is its own. */
  ghost predicate StaysAt(states: seq<State>, events: seq<Event>, i: nat, n: nat, t: Tid)
    requires IsRun(states, events) && i < n < |events|
  {
    events[n].t == t && forall k :: i < k < n ==> events[k].t != t
  }

  lemma {:induction false} WaiterStays(states: seq<State>, events: seq<Event>, i: nat, n: nat, t: Tid)
    requires FreshRun(states, events) && i < n <= |events| && t < |states[i + 1].pc|
    requires states[i + 1].pc[t].WaitCall? || states[i + 1].pc[t].NapCall?
    requires forall k :: i < k < n ==> events[k].t != t
    ensures t < |states[n].pc| && states[n].pc[t] == states[i + 1].pc[t]
  {
    if n > i + 1 {
      WaiterStays(states, events, i, n - 1, t);
      RunEvolves(states, events, n - 1);
      assert Bystander(states[n - 1].pc[t], states[n].pc[t], states[n - 1]);
    }
  }

  lemma SleepStep(s: State, t: Tid, ch: Choice, m: Mid)
    requires Enabled(s, t, ch) && (s.pc[t].WaitCall? || s.pc[t].NapCall?) && s.pc[t].m == m
    ensures HasMutex(s, m) && Next(s, t, ch).mx == s.mx
    ensures SleepsOn(Next(s, t, ch), t, m) <==> s.mx[m].w.U() == LOCKED_AND_CONTENDED
  {
    assert Next(s, t, ch) == LockStep(s, t, ch);
  }

  lemma MarkedMeans257(s: State, m: Mid)
    requires Inv(s) && HasMutex(s, m)
    ensures s.mx[m].w.U() == LOCKED_AND_CONTENDED <==> s.mx[m].w == FromU(LOCKED_AND_CONTENDED)
  {
    assert MutexOk(s, m);
    FourValuesAsU(s.mx[m].w);
  }

  lemma MarkingStep(s: State, t: Tid, ch: Choice, m: Mid)
    requires Enabled(s, t, ch) && (s.pc[t].Remark? || (s.pc[t].Mark? && s.pc[t].inSegment)) && s.pc[t].m == m
    requires HasMutex(s, m) && s.mx[m].w.locked == LOCKED
    ensures t < |Next(s, t, ch).pc| && Next(s, t, ch).pc[t] == (if s.pc[t].Mark? then NapCall(m) else WaitCall(m, s.pc[t].k))
    ensures HasMutex(Next(s, t, ch), m) && Next(s, t, ch).mx[m].w == FromU(LOCKED_AND_CONTENDED) 
  {
    assert Next(s, t, ch) == LockStep(s, t, ch);
  }

  /** After a thread has marked, inside a segment or not, the word is 257, whether it has got the mutex or not;
      it gets it if the mutex is free, and leaves it to its holder otherwise. */
  lemma MarkLeaves257(s: State, t: Tid, ch: Choice, m: Mid)
    requires Inv(s) && Enabled(s, t, ch) && (s.pc[t].Remark? || s.pc[t].Mark?) && s.pc[t].m == m
    ensures HasMutex(s, m) && HasMutex(Next(s, t, ch), m) && Next(s, t, ch).mx[m].w == FromU(LOCKED_AND_CONTENDED)
    ensures Next(s, t, ch).mx[m].owner == if s.mx[m].owner == None then Some(t) else s.mx[m].owner
  {
    assert MutexOk(s, m) && ThreadOk(s, t);
    assert Next(s, t, ch) == LockStep(s, t, ch);
  }

  /** A thread that has marked the word and found it held calls the futex next, and sleeps if and only if the
      word is still as it left it: neither released, nor taken by a thread that found no mark. */
  lemma SleepsIffWordUnchanged(states: seq<State>, events: seq<Event>, i: nat, n: nat, t: Tid, m: Mid)
    requires FreshRun(states, events) && i < n < |events| && MarksInVain(states, events, i, t, m)
    requires StaysAt(states, events, i, n, t)
    ensures HasMutex(states[i + 1], m) && HasMutex(states[n], m)
    ensures SleepsOn(states[n + 1], t, m) <==> states[n].mx[m].w == states[i + 1].mx[m].w
  {
    assert StepAt(states, events, i) && StepAt(states, events, n);
    RunInv(states, events, i);
    RunInv(states, events, n);
    assert MutexOk(states[i], m);
    MarkingStep(states[i], t, events[i].ch, m);
    WaiterStays(states, events, i, n, t);
    SleepStep(states[n], t, events[n].ch, m);
    MarkedMeans257(states[n], m);
  }

  // ----- two looks

  /** Step `i` is a look of `t` at mutex `m` that finds the byte free. */
  ghost predicate FindsFree(states: seq<State>, events: seq<Event>, i: nat, t: Tid, m: Mid, at: UStage)
    requires IsRun(states, events) && i < |events|
  {
    && events[i].t == t && t < |states[i].pc| && HasMutex(states[i], m)
    && states[i].pc[t].Unlocking? && states[i].pc[t].m == m && states[i].pc[t].at == at
    && states[i].mx[m].owner == None
  }

  ghost predicate LookedOnce(states: seq<State>, events: seq<Event>, i: nat, n: nat, t: Tid, m: Mid)
    requires IsRun(states, events) && n <= |events|
  {
    i < n && FindsFree(states, events, i, t, m, Peek1) && OwnSteps(events, i, n, t) == 1
  }

  ghost predicate LookedTwice(states: seq<State>, events: seq<Event>, i: nat, j: nat, n: nat, t: Tid, m: Mid)
    requires IsRun(states, events) && n <= |events|
  {
    && i < j < n && FindsFree(states, events, i, t, m, Peek1) && FindsFree(states, events, j, t, m, Peek2)
    && OwnSteps(events, i, j, t) == 1 && OwnSteps(events, j, n, t) == 1
  }

  predicate UnlockAt(s: State, t: Tid, m: Mid, at: UStage) {
    t < |s.pc| && s.pc[t].Unlocking? && s.pc[t].m == m && s.pc[t].at == at
  }

  /** How an unlock comes to its second look and to the clear: by its own step, from a look at a free byte. */
  lemma LookStep(s: State, t: Tid, ch: Choice, m: Mid, at: UStage)
    requires Inv(s) && Enabled(s, t, ch) && (at == Peek2 || at == Clear) && UnlockAt(Next(s, t, ch), t, m, at)
    ensures UnlockAt(s, t, m, if at == Peek2 then Peek1 else Peek2) && HasMutex(s, m) && s.mx[m].owner == None
  {
    assert ThreadOk(s, t);
    if s.pc[t].Unlocking? {
      assert Next(s, t, ch) == UnlockStep(s, t, ch) && WordOk(s.mx[s.pc[t].m]);
    } else {
      OnlyUnlocksLook(s, t, ch);
    }
  }

  lemma OnlyUnlocksLook(s: State, t: Tid, ch: Choice)
    requires Enabled(s, t, ch) && !s.pc[t].Unlocking?
    ensures t < |Next(s, t, ch).pc| && (Next(s, t, ch).pc[t].Unlocking? ==> Next(s, t, ch).pc[t].at == Look)
  {
  }

  /** The step before an unlock is at its second look or at the clear. */
  lemma LookBefore(states: seq<State>, events: seq<Event>, n: nat, t: Tid, m: Mid, at: UStage)
    requires FreshRun(states, events) && n < |events| && (at == Peek2 || at == Clear) && UnlockAt(states[n + 1], t, m, at)
    ensures events[n].t == t ==> FindsFree(states, events, n, t, m, if at == Peek2 then Peek1 else Peek2)
    ensures events[n].t != t ==> UnlockAt(states[n], t, m, at)
  {
    RunEvolves(states, events, n);
    if events[n].t == t {
      LookStep(states[n], t, events[n].ch, m, at);
    } else {
      assert Bystander(states[n].pc[t], states[n + 1].pc[t], states[n]);
    }
  }

  lemma {:induction false} OneLook(states: seq<State>, events: seq<Event>, n: nat, t: Tid, m: Mid) returns (i: nat)
    requires FreshRun(states, events) && n <= |events| && UnlockAt(states[n], t, m, Peek2)
    ensures LookedOnce(states, events, i, n, t, m)
  {
    FreshIsIdle(states[0], t);
    LookBefore(states, events, n - 1, t, m, Peek2);
    if events[n - 1].t == t {
      i := n - 1;
      assert OwnSteps(events, i, i, t) == 0;
    } else {
      i := OneLook(states, events, n - 1, t, m);
    }
  }

  lemma FreshIsIdle(s: State, t: Tid)
    requires StartsFresh(s)
    ensures t < |s.pc| ==> s.pc[t].Idle?
  {
  }

  /** An unlocker about to clear the mark has looked for a taker twice, one look after the other, and found
      the lock byte free both times. */
  lemma {:induction false} LooksTwiceBeforeClear(states: seq<State>, events: seq<Event>, n: nat, t: Tid, m: Mid)
      returns (i: nat, j: nat)
    requires FreshRun(states, events) && n <= |events| && UnlockAt(states[n], t, m, Clear)
    ensures LookedTwice(states, events, i, j, n, t, m)
  {
    FreshIsIdle(states[0], t);
    LookBefore(states, events, n - 1, t, m, Clear);
    if events[n - 1].t == t {
      j := n - 1;
      i := OneLook(states, events, j, t, m);
      assert OwnSteps(events, j, j, t) == 0;
    } else {
      i, j := LooksTwiceBeforeClear(states, events, n - 1, t, m);
    }
  }

  /** A look that finds a taker ends the unlock: the taker will wake whoever sleeps. */
  lemma TakerEndsUnlock(s: State, t: Tid, ch: Choice, m: Mid)
    requires Inv(s) && Enabled(s, t, ch) && (UnlockAt(s, t, m, Peek1) || UnlockAt(s, t, m, Peek2))
    requires HasMutex(s, m) && s.mx[m].owner.Some?
    ensures var s' := Next(s, t, ch);
            s'.mx == s.mx && s'.cv == s.cv && s'.pc == s.pc[t := AfterUnlock(m, s.pc[t].next)]
  {
    assert MutexOk(s, m);
    assert Next(s, t, ch) == UnlockStep(s, t, ch);
  }

  // ----- one wakeup

  /** A wake lets exactly one thread go when someone sleeps on the mutex, and nobody else moves. */
  lemma WakeLetsOneGo(s: State, t: Tid, ch: Choice, m: Mid)
    requires Inv(s) && Enabled(s, t, ch) && UnlockAt(s, t, m, Wake)
    ensures var s' := Next(s, t, ch);
            && |s'.pc| == |s.pc|
            && (forall z: Tid :: z < |s.pc| && z != t && s'.pc[z] != s.pc[z] ==> z == ch.pick)
            && ((exists z: Tid :: SleepsOn(s, z, m)) ==>
                 ch.pick != t && SleepsOn(s, ch.pick, m) && !SleepsOn(s', ch.pick, m)
                 && (s'.pc[ch.pick].Remark? || s'.pc[ch.pick].NapDone?))
  {
    assert Next(s, t, ch) == UnlockStep(s, t, ch);
  }

  /** So does the wake of a signal, and the queue of the condition variable loses that thread only. */
  lemma SignalLetsOneGo(s: State, t: Tid, ch: Choice, c: Cid)
    requires Inv(s) && Enabled(s, t, ch) && s.pc[t] == SignalWake(c)
    ensures var s', q := Next(s, t, ch), s.cv[c].q;
            && |s'.pc| == |s.pc| && HasCond(s', c)
            && (q == [] ==> s'.cv == s.cv && forall z: Tid :: z < |s.pc| && z != t ==> s'.pc[z] == s.pc[z])
            && (q != [] ==>
                 && q[ch.pick] != t && q[ch.pick] < |s.pc| && s'.pc[q[ch.pick]].Remark?
                 && s'.cv[c].q == q[..ch.pick] + q[ch.pick + 1..]
                 && forall z: Tid :: z < |s.pc| && z != t && z != q[ch.pick] ==> s'.pc[z] == s.pc[z])
  {
    assert CondOk(s, c);
    assert Next(s, t, ch) == SignalStep(s, t, ch);
  }
}

/**
 Broadcast as a whole call.  One that finds the condition variable bound increments the number once and
 requeues once, and no earlier waiter is asleep on the condition variable when it returns or ever after.  One
 that finds it unbound does nothing: nobody sleeps there yet, but a thread on its way to bind it is missed.
 */
module HtllBroadcastCalls {
  import opened LockWord
  import opened Options
  import opened HtllModel
  import opened HtllSafety
  import opened HtllRuns
  import opened HtllScenes
  import opened HtllCalls
  import opened HtllSignals
  import opened HtllSignalCalls
  import opened HtllBinding

  /** Where a broadcast called at step `a` is at `n`, when it read what `c` is bound to, and when it
      incremented the number. */
  ghost predicate BroadcastAt(states: seq<State>, events: seq<Event>, a: nat, r: nat, i: nat, n: nat, t: Tid, c: Cid)
    requires IsRun(states, events) && a < n <= |events|
  {
    && t < |states[n].pc|
    && match states[n].pc[t]
       case BroadcastRead(c') => c' == c
       case BroadcastInc(c', m) => c' == c && a < r < n && ReadsBound(states, events, r, t, c, m)
       case BroadcastRequeue(c', m) =>
         && c' == c && a < r < i < n && ReadsBound(states, events, r, t, c, m)
         && StepsFrom(states, events, i, t, BroadcastInc(c, m))
       case Idle(code) => code == Ok && BroadcastBack(states, events, a, r, i, n, t, c)
       case _ => false
  }

  ghost predicate ReadsBound(states: seq<State>, events: seq<Event>, r: nat, t: Tid, c: Cid, m: Mid)
    requires IsRun(states, events) && r < |events|
  {
    StepsFrom(states, events, r, t, BroadcastRead(c)) && BoundTo(states[r], c, m)
  }

  /** The broadcast is back at `n`: it has read that `c` is unbound and done nothing, or it has incremented
      the number and requeued. */
  ghost predicate BroadcastBack(states: seq<State>, events: seq<Event>, a: nat, r: nat, i: nat, n: nat, t: Tid, c: Cid)
    requires IsRun(states, events) && a < n <= |events|
  {
    && a < r < n && StepsFrom(states, events, r, t, BroadcastRead(c)) && HasCond(states[r], c)
    && if states[r].cv[c].m.None? then n == r + 1
       else
         var m := states[r].cv[c].m.value;
         && r < i < n - 1 && StepsFrom(states, events, i, t, BroadcastInc(c, m))
         && StepsFrom(states, events, n - 1, t, BroadcastRequeue(c, m))
  }

  lemma BroadcasterMoves(s: State, t: Tid, ch: Choice, c: Cid)
    requires Enabled(s, t, ch) && Signalling(s.pc[t]) && s.pc[t].c == c
    ensures var s' := Next(s, t, ch);
            && t < |s'.pc| && HasCond(s, c)
            && match s.pc[t]
               case BroadcastRead(_) =>
                 s'.pc[t] == if s.cv[c].m.None? then Idle(Ok) else BroadcastInc(c, s.cv[c].m.value)
               case BroadcastInc(_, m) => s'.pc[t] == BroadcastRequeue(c, m)
               case BroadcastRequeue(_, _) => s'.pc[t] == Idle(Ok)
               case _ => true
  {
    assert Next(s, t, ch) == SignalStep(s, t, ch);
  }

  /** One more step of the broadcaster. */
  lemma BroadcasterGoesOn(states: seq<State>, events: seq<Event>, a: nat, r: nat, i: nat, n: nat, t: Tid, c: Cid)
      returns (r': nat, i': nat)
    requires FreshRun(states, events) && a < n < |events| && events[n].t == t
    requires BroadcastAt(states, events, a, r, i, n, t, c) && Signalling(states[n].pc[t])
    ensures BroadcastAt(states, events, a, r', i', n + 1, t, c)
  {
    assert StepAt(states, events, n);
    BroadcasterMoves(states[n], t, events[n].ch, c);
    r', i' := r, i;
    match states[n].pc[t]
    case BroadcastRead(_) => r' := n;
    case BroadcastInc(_, _) => i' := n;
    case _ =>
  }

  lemma {:induction false} BroadcastGoesOn(states: seq<State>, events: seq<Event>, a: nat, n: nat, t: Tid, c: Cid)
      returns (r: nat, i: nat)
    requires FreshRun(states, events) && a < n <= |events| && Calls(states, events, a, t, OpBroadcast(c))
    requires Busily(states, a, n, t)
    ensures BroadcastAt(states, events, a, r, i, n, t, c)
  {
    if n == a + 1 {
      r, i := a, a;
      assert StepAt(states, events, a);
      assert states[n] == CallStep(states[a], t, events[a].ch);
    } else {
      r, i := BroadcastGoesOn(states, events, a, n - 1, t, c);
      if events[n - 1].t == t {
        r, i := BroadcasterGoesOn(states, events, a, r, i, n - 1, t, c);
      } else {
        SignallerStays(states, events, n - 1, t);
      }
    }
  }

  /** From one call of broadcast to its return: what it reads, and what it does then. */
  lemma BroadcastCall(states: seq<State>, events: seq<Event>, a: nat, n: nat, t: Tid, c: Cid) returns (r: nat, i: nat)
    requires FreshRun(states, events) && a < n <= |events| && Calls(states, events, a, t, OpBroadcast(c))
    requires Busily(states, a, n, t) && t < |states[n].pc| && states[n].pc[t].Idle?
    ensures BroadcastBack(states, events, a, r, i, n, t, c)
  {
    r, i := BroadcastGoesOn(states, events, a, n, t, c);
  }

  /** No thread that waits with a number up to `b` sleeps on `c->seq` at `n` or later, while the number has
      not come round. */
  ghost predicate NobodyLeft(states: seq<State>, n: nat, c: Cid, b: nat) {
    forall k :: n <= k < |states| && HasCond(states[k], c) && states[k].cv[c].incs < UINT ==> Sleeping(states[k], c, b) == {}
  }

  lemma {:induction false} StaysEmpty(states: seq<State>, events: seq<Event>, n: nat, k: nat, c: Cid, b: nat)
    requires FreshRun(states, events) && n <= k <= |events| && HasCond(states[n], c) && HasCond(states[k], c)
    requires b < states[n].cv[c].incs && states[k].cv[c].incs < UINT && Sleeping(states[n], c, b) == {}
    ensures b < states[k].cv[c].incs && Sleeping(states[k], c, b) == {}
  {
    if n < k {
      NumberGrows(states, events, k - 1, c);
      StaysEmpty(states, events, n, k - 1, c, b);
      RunEvolves(states, events, k - 1);
      SleepersOnlyLeave(states[k - 1], events[k - 1].t, events[k - 1].ch, c, b);
    }
  }

  lemma {:induction false} NumbersGrow(states: seq<State>, events: seq<Event>, i: nat, j: nat, c: Cid)
    requires FreshRun(states, events) && i <= j <= |events| && HasCond(states[i], c)
    ensures HasCond(states[j], c) && states[i].cv[c].incs <= states[j].cv[c].incs
  {
    if i < j {
      NumbersGrow(states, events, i, j - 1, c);
      RunEvolves(states, events, j - 1);
    }
  }

  lemma BroadcastIncrements(states: seq<State>, events: seq<Event>, i: nat, t: Tid, c: Cid, m: Mid)
    requires FreshRun(states, events) && i < |events| && StepsFrom(states, events, i, t, BroadcastInc(c, m))
    ensures Increments(states, events, i, c)
  {
    RunEvolves(states, events, i);
    assert ThreadOk(states[i], t) && states[i + 1] == SignalStep(states[i], t, events[i].ch);
  }

  /** The number that `c` has at step `a` is old when the broadcast returns. */
  lemma NumberIsOld(states: seq<State>, events: seq<Event>, a: nat, i: nat, n: nat, t: Tid, c: Cid, m: Mid)
    requires FreshRun(states, events) && a <= i < n <= |events| && HasCond(states[a], c)
    requires StepsFrom(states, events, i, t, BroadcastInc(c, m))
    ensures HasCond(states[n], c) && states[a].cv[c].incs < states[n].cv[c].incs
  {
    NumbersGrow(states, events, a, i, c);
    BroadcastIncrements(states, events, i, t, c, m);
    NumbersGrow(states, events, i + 1, n, c);
  }

  lemma NobodyAfterRequeue(states: seq<State>, events: seq<Event>, n: nat, t: Tid, c: Cid, m: Mid, b: nat)
    requires FreshRun(states, events) && 0 < n <= |events|
    requires StepsFrom(states, events, n - 1, t, BroadcastRequeue(c, m))
    requires HasCond(states[n], c) && b < states[n].cv[c].incs
    ensures NobodyLeft(states, n, c, b)
  {
    RunInv(states, events, n - 1);
    assert StepAt(states, events, n - 1) && states[n] == Next(states[n - 1], t, events[n - 1].ch);
    BroadcastReleasesAll(states[n - 1], t, events[n - 1].ch, c, m, b);
    forall k | n <= k < |states| && HasCond(states[k], c) && states[k].cv[c].incs < UINT
      ensures Sleeping(states[k], c, b) == {}
    {
      StaysEmpty(states, events, n, k, c, b);
    }
  }

  /** A broadcast that finds the condition variable bound releases everyone who had read the number before its
      call, asleep or on the way: none of them is asleep on it when the broadcast returns, or later. */
  lemma BroadcastReleasesWaiters(states: seq<State>, events: seq<Event>, a: nat, r: nat, i: nat, n: nat, t: Tid, c: Cid)
    requires FreshRun(states, events) && a < n <= |events| && BroadcastBack(states, events, a, r, i, n, t, c)
    requires HasCond(states[a], c) && states[r].cv[c].m.Some?
    ensures NobodyLeft(states, n, c, states[a].cv[c].incs)
  {
    var m := states[r].cv[c].m.value;
    NumberIsOld(states, events, a, i, n, t, c, m);
    NobodyAfterRequeue(states, events, n, t, c, m, states[a].cv[c].incs);
  }

  /** One that finds it unbound finds nobody asleep on it. */
  lemma UnboundHasNoSleepers(states: seq<State>, events: seq<Event>, r: nat, c: Cid, b: nat)
    requires FreshRun(states, events) && r <= |events| && HasCond(states[r], c) && states[r].cv[c].m.None?
    ensures Sleeping(states[r], c, b) == {}
  {
    RunInv(states, events, r);
    forall z: Tid | z < |states[r].pc| ensures !SleepsSince(states[r], z, c, b) { assert ThreadOk(states[r], z); }
  }

  // ----- who is missed

  function Waiter(at: WStage): Pc { Binding(at, 0, 0, 0, InWait) }

  /** Thread 0 is about to bind the condition variable to its mutex when thread 1's broadcast finds it
      unbound. */
  lemma BroadcastComesEarly() returns (states: seq<State>, events: seq<Event>, a: nat)
    ensures FreshRun(states, events) && a + 2 == |events|
    ensures states[a] == Pair(X(HELD, Some(0)), FreshMutex(), UNBOUND, Waiter(Bind), Idle(Ok))
    ensures Calls(states, events, a, 1, OpBroadcast(0)) && Busily(states, a, a + 2, 1)
    ensures StepsFrom(states, events, a + 1, 1, BroadcastRead(0)) && states[a + 1].cv == states[a].cv
    ensures states[a + 2] == states[a]
  {
    states, events := FirstTakes();
    var f, x, p := FreshMutex(), X(HELD, Some(0)), Idle(Ok);
    states, events := ThenPair(states, events, 0, Call(OpWait(0, 0)), Pair(x, f, UNBOUND, Waiter(ReadSeq), p));
    states, events := ThenPair(states, events, 0, NONE, Pair(x, f, UNBOUND, Waiter(Compare), p));
    states, events := ThenPair(states, events, 0, NONE, Pair(x, f, UNBOUND, Waiter(IsSet), p));
    states, events := ThenPair(states, events, 0, NONE, Pair(x, f, UNBOUND, Waiter(Bind), p));
    a := |events|;
    states, events := ThenPair(states, events, 1, Call(OpBroadcast(0)), Pair(x, f, UNBOUND, Waiter(Bind), BroadcastRead(0)));
    states, events := ThenPair(states, events, 1, NONE, Pair(x, f, UNBOUND, Waiter(Bind), p));
  }

  /** Thread 0 goes on to bind it and releases its mutex. */
  lemma BinderGoesOn() returns (states: seq<State>, events: seq<Event>, a: nat)
    ensures FreshRun(states, events) && a + 2 <= |events|
    ensures HasCond(states[a], 0) && Calls(states, events, a, 1, OpBroadcast(0)) && Busily(states, a, a + 2, 1)
    ensures BroadcastBack(states, events, a, a + 1, a + 1, a + 2, 1, 0) && states[a + 1].cv[0].m.None?
    ensures WaitsSince(states[a], 0, 0, 0) && states[a].cv[0].incs == 0
    ensures states[|events|] == Pair(X(FREE, None), FreshMutex(), BOUND, CondCall(0, 0, 0, InWait), Idle(Ok))
  {
    states, events, a := BroadcastComesEarly();
    var f, x, p, next := FreshMutex(), X(HELD, Some(0)), Idle(Ok), ToSleep(0, 0, InWait);
    states, events := ThenPair(states, events, 0, NO_TIMEOUT, Pair(x, f, BOUND, Waiter(Recheck), p));
    states, events := ThenPair(states, events, 0, NO_TIMEOUT, Pair(x, f, BOUND, Unlocking(Look, 0, next), p));
    states, events := ThenPair(states, events, 0, NO_TIMEOUT, Pair(x, f, BOUND, Unlocking(Cas, 0, next), p));
    states, events := ThenPair(states, events, 0, NO_TIMEOUT, Pair(X(FREE, None), f, BOUND, CondCall(0, 0, 0, InWait), p));
  }

  /** It sleeps, with the number from before the broadcast. */
  lemma BroadcastMissesBinder() returns (states: seq<State>, events: seq<Event>, a: nat)
    ensures FreshRun(states, events) && a + 2 <= |events|
    ensures HasCond(states[a], 0) && Calls(states, events, a, 1, OpBroadcast(0)) && Busily(states, a, a + 2, 1)
    ensures BroadcastBack(states, events, a, a + 1, a + 1, a + 2, 1, 0) && states[a + 1].cv[0].m.None?
    ensures WaitsSince(states[a], 0, 0, states[a].cv[0].incs)
    ensures HasCond(states[|events|], 0) && states[|events|].cv[0].incs < UINT
    ensures SleepsSince(states[|events|], 0, 0, states[a].cv[0].incs)
  {
    states, events, a := BinderGoesOn();
    assert BOUND.q + [0] == [0];
    states, events := ThenPair(states, events, 0, NO_TIMEOUT,
                               Pair(X(FREE, None), FreshMutex(), Cond(Some(0), 0, [0]), CondAsleep(0, 0, 0, InWait), Idle(Ok)));
  }

  const NO_TIMEOUT := Choice(OpSignal(0), 0, 0, 0, 0, false)

  /** A whole call of broadcast, from `a` to `n`, that reads at `r` what `c` is bound to. */
  ghost predicate WholeBroadcast(states: seq<State>, events: seq<Event>, a: nat, r: nat, i: nat, n: nat, t: Tid, c: Cid) {
    && FreshRun(states, events) && a < n <= |events| && Calls(states, events, a, t, OpBroadcast(c))
    && HasCond(states[a], c) && BroadcastBack(states, events, a, r, i, n, t, c)
  }

  /** Exactly when a broadcast reaches everyone who waits at its call: in all runs with what it reads of the
      binding, no earlier waiter sleeps on the condition variable after it, if and only if it reads a mutex. */
  lemma BroadcastReachesAllIff(read: Option<Mid>)
    ensures (forall states: seq<State>, events: seq<Event>, a: nat, r: nat, i: nat, n: nat, t: Tid, c: Cid ::
               WholeBroadcast(states, events, a, r, i, n, t, c) && states[r].cv[c].m == read
               ==> NobodyLeft(states, n, c, states[a].cv[c].incs))
            <==> read.Some?
  {
    if read.Some? {
      forall states: seq<State>, events: seq<Event>, a: nat, r: nat, i: nat, n: nat, t: Tid, c: Cid
        | WholeBroadcast(states, events, a, r, i, n, t, c) && states[r].cv[c].m == read
        ensures NobodyLeft(states, n, c, states[a].cv[c].incs)
      {
        BroadcastReleasesWaiters(states, events, a, r, i, n, t, c);
      }
    } else {
      var states, events, a := BroadcastMissesBinder();
      assert WholeBroadcast(states, events, a, a + 1, a + 1, a + 2, 1, 0);
      assert 0 in Sleeping(states[|events|], 0, states[a].cv[0].incs);
      assert !NobodyLeft(states, a + 2, 0, states[a].cv[0].incs);
    }
  }
}

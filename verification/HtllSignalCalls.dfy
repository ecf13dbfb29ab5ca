/**
 Signals and broadcasts as whole calls: what each does between its call and its return, that k whole calls of
 signal release min(k, n) waiters, that a broadcast releases every earlier waiter exactly if it finds the
 condition variable bound, and that a wait sleeps exactly if nobody has signalled since it read the number.
 */
module HtllSignalCalls {
  import opened LockWord
  import opened Options
  import opened HtllModel
  import opened HtllSafety
  import opened HtllRuns
  import opened HtllCalls
  import opened HtllSignals

  /** Step `i` is thread `t`'s, from program point `p`. */
  ghost predicate StepsFrom(states: seq<State>, events: seq<Event>, i: nat, t: Tid, p: Pc)
    requires IsRun(states, events) && i < |events|
  {
    events[i].t == t && t < |states[i].pc| && states[i].pc[t] == p
  }

  /** A thread in a signal or broadcast stays where it is while others move. */
  lemma SignallerStays(states: seq<State>, events: seq<Event>, n: nat, t: Tid)
    requires FreshRun(states, events) && n < |events| && events[n].t != t
    requires t < |states[n].pc| && Signalling(states[n].pc[t])
    ensures t < |states[n + 1].pc| && states[n + 1].pc[t] == states[n].pc[t]
  {
    RunEvolves(states, events, n);
    assert Bystander(states[n].pc[t], states[n + 1].pc[t], states[n]);
  }

  // ----- signal

  /** Where a signal called at step `a` is at `n`, and when it incremented the number. */
  ghost predicate SignalAt(states: seq<State>, events: seq<Event>, a: nat, i: nat, n: nat, t: Tid, c: Cid)
    requires IsRun(states, events) && a < n <= |events|
  {
    && t < |states[n].pc|
    && match states[n].pc[t]
       case SignalInc(c') => c' == c && OwnSteps(events, a + 1, n, t) == 0
       case SignalWake(c') =>
         c' == c && a < i < n && StepsFrom(states, events, i, t, SignalInc(c)) && OwnSteps(events, a + 1, n, t) == 1
       case Idle(code) =>
         && code == Ok && a < i < n - 1 && StepsFrom(states, events, i, t, SignalInc(c))
         && StepsFrom(states, events, n - 1, t, SignalWake(c)) && OwnSteps(events, a + 1, n, t) == 2
       case _ => false
  }

  lemma SignallerMoves(s: State, t: Tid, ch: Choice, c: Cid)
    requires Enabled(s, t, ch) && (s.pc[t] == SignalInc(c) || s.pc[t] == SignalWake(c))
    ensures var s' := Next(s, t, ch);
            t < |s'.pc| && s'.pc[t] == if s.pc[t].SignalInc? then SignalWake(c) else Idle(Ok)
  {
    assert Next(s, t, ch) == SignalStep(s, t, ch);
  }

  lemma {:induction false} SignalGoesOn(states: seq<State>, events: seq<Event>, a: nat, n: nat, t: Tid, c: Cid)
      returns (i: nat)
    requires FreshRun(states, events) && a < n <= |events| && Calls(states, events, a, t, OpSignal(c))
    requires Busily(states, a, n, t)
    ensures SignalAt(states, events, a, i, n, t, c)
  {
    assert StepAt(states, events, n - 1);
    if n == a + 1 {
      i := a;
      assert states[n] == CallStep(states[a], t, events[a].ch);
    } else {
      i := SignalGoesOn(states, events, a, n - 1, t, c);
      if events[n - 1].t == t {
        SignallerMoves(states[n - 1], t, events[n - 1].ch, c);
        if states[n - 1].pc[t].SignalInc? { i := n - 1; }
      } else {
        SignallerStays(states, events, n - 1, t);
      }
    }
  }

  /** How many of the first `n` steps are the increment of a signal or a broadcast. */
  ghost function IncrementSteps(states: seq<State>, events: seq<Event>, n: nat, c: Cid): nat
    requires IsRun(states, events) && n <= |events|
  {
    if n == 0 then 0
    else IncrementSteps(states, events, n - 1, c) + if IncrementsAt(states, events, n - 1, c) then 1 else 0
  }

  ghost predicate IncrementsAt(states: seq<State>, events: seq<Event>, i: nat, c: Cid)
    requires IsRun(states, events) && i < |events|
  {
    && events[i].t < |states[i].pc|
    && var p := states[i].pc[events[i].t]; p == SignalInc(c) || (p.BroadcastInc? && p.c == c)
  }

  lemma StepIncrements(s: State, t: Tid, ch: Choice, c: Cid)
    requires Inv(s) && Enabled(s, t, ch) && HasCond(s, c)
    ensures HasCond(Next(s, t, ch), c)
    ensures Next(s, t, ch).cv[c].incs ==
            s.cv[c].incs + if s.pc[t] == SignalInc(c) || (s.pc[t].BroadcastInc? && s.pc[t].c == c) then 1 else 0
  {
  }

  /** The number of a condition variable counts the signals and the broadcasts that have made their increment,
      each of them once. */
  lemma {:induction false} NumberIsCount(states: seq<State>, events: seq<Event>, n: nat, c: Cid)
    requires FreshRun(states, events) && n <= |events| && HasCond(states[n], c)
    ensures states[n].cv[c].incs == IncrementSteps(states, events, n, c)
  {
    if n == 0 {
      var ms: nat, cs: nat, ts: nat :| states[0] == Init(ms, cs, ts);
      assert states[0].cv[c] == FreshCond();
    } else {
      RunShape(states, events, n - 1, n);
      NumberIsCount(states, events, n - 1, c);
      RunInv(states, events, n - 1);
      assert StepAt(states, events, n - 1);
      StepIncrements(states[n - 1], events[n - 1].t, events[n - 1].ch, c);
    }
  }

  /** A signal is one increment and then one wake, and nothing else. */
  lemma SignalCall(states: seq<State>, events: seq<Event>, a: nat, n: nat, t: Tid, c: Cid) returns (i: nat)
    requires FreshRun(states, events) && a < n <= |events| && Calls(states, events, a, t, OpSignal(c))
    requires Busily(states, a, n, t) && t < |states[n].pc| && states[n].pc[t].Idle?
    ensures a < i < n - 1 && Increments(states, events, i, c) && StepsFrom(states, events, i, t, SignalInc(c))
    ensures StepsFrom(states, events, n - 1, t, SignalWake(c)) && OwnSteps(events, a + 1, n, t) == 2
  {
    i := SignalGoesOn(states, events, a, n, t, c);
    RunEvolves(states, events, i);
    assert ThreadOk(states[i], t);
    assert states[i + 1] == SignalStep(states[i], t, events[i].ch);
  }

  /** Step `j` is the return of a whole call of signal, made at step `a` or later. */
  ghost predicate SignalReturns(states: seq<State>, events: seq<Event>, a: nat, j: nat, c: Cid)
    requires IsRun(states, events) && a <= j < |events|
  {
    && events[j].t < |states[j + 1].pc| && states[j + 1].pc[events[j].t].Idle?
    && exists b :: a <= b < j && Calls(states, events, b, events[j].t, OpSignal(c))
                   && Busily(states, b, j + 1, events[j].t)
  }

  /** Whole calls of signal among the steps `a` to `n - 1`. */
  ghost function SignalCalls(states: seq<State>, events: seq<Event>, a: nat, n: nat, c: Cid): nat
    requires IsRun(states, events) && a <= n <= |events|
  {
    if n == a then 0
    else SignalCalls(states, events, a, n - 1, c) + if SignalReturns(states, events, a, n - 1, c) then 1 else 0
  }

  /** Step `i` is the first increment from step `a` on. */
  ghost predicate FirstIncrement(states: seq<State>, events: seq<Event>, a: nat, i: nat, c: Cid)
    requires IsRun(states, events) && i < |events|
  {
    a <= i && Increments(states, events, i, c) && forall k :: a <= k < i ==> !Increments(states, events, k, c)
  }

  lemma {:induction false} FirstIncrementExists(states: seq<State>, events: seq<Event>, a: nat, n: nat, c: Cid)
      returns (i: nat)
    requires IsRun(states, events) && a <= n < |events| && Increments(states, events, n, c)
    ensures i <= n && FirstIncrement(states, events, a, i, c)
    decreases n - a
  {
    if k :| a <= k < n && Increments(states, events, k, c) {
      i := FirstIncrementExists(states, events, a, k, c);
    } else {
      i := n;
    }
  }

  lemma NoOwnStepsBetween(states: seq<State>, events: seq<Event>, a: nat, i: nat, n: nat, t: Tid)
    requires IsRun(states, events) && a < i < n - 1 && n <= |events| && events[i].t == t && events[n - 1].t == t
    requires OwnSteps(events, a + 1, n, t) == 2
    ensures forall k :: i < k < n - 1 ==> events[k].t != t
  {
    forall k | i < k < n - 1 ensures events[k].t != t {
      if events[k].t == t {
        OwnStepsSplit(events, a + 1, i, n, t);
        OwnStepsSplit(events, i + 1, k, n, t);
      }
    }
  }

  lemma {:induction false} OwnStepsSplit(events: seq<Event>, a: nat, k: nat, n: nat, t: Tid)
    requires a <= k < n <= |events|
    ensures OwnSteps(events, a, n, t) ==
            OwnSteps(events, a, k, t) + (if events[k].t == t then 1 else 0) + OwnSteps(events, k + 1, n, t)
    decreases n - k
  {
    if k < n - 1 { OwnStepsSplit(events, a, k, n - 1, t); }
  }

  /** A whole call completes a signal that began at the first increment or later. */
  lemma CallCompletes(states: seq<State>, events: seq<Event>, a: nat, i: nat, j: nat, c: Cid)
    requires FreshRun(states, events) && a <= j < |events| && i < |events| && FirstIncrement(states, events, a, i, c)
    requires SignalReturns(states, events, a, j, c)
    ensures i < j && CompletesSignal(states, events, i, j, c)
  {
    var t := events[j].t;
    var b: nat :| a <= b < j && Calls(states, events, b, t, OpSignal(c)) && Busily(states, b, j + 1, t);
    var k := SignalCall(states, events, b, j + 1, t, c);
    NoOwnStepsBetween(states, events, b, k, j + 1, t);
    assert i <= k && events[k].t == events[j].t && At(states, events, k, SignalInc(c));
  }

  lemma {:induction false} CallsAreCompleted(states: seq<State>, events: seq<Event>, a: nat, i: nat, n: nat, c: Cid)
    requires FreshRun(states, events) && a <= n <= |events| && i < |events| && FirstIncrement(states, events, a, i, c)
    ensures SignalCalls(states, events, a, n, c) <= if n < i then 0 else CompletedSignals(states, events, i, n, c)
  {
    if a < n {
      CallsAreCompleted(states, events, a, i, n - 1, c);
      if SignalReturns(states, events, a, n - 1, c) { CallCompletes(states, events, a, i, n - 1, c); }
    }
  }

  /** No signal is lost, by whole calls.  If some calls of signal are made and return among the steps `a` to
      `n - 1`, then of the threads that wait on `c` at the first increment since `a`, asleep or not yet, at
      least as many as there were calls, or all of them, are no longer asleep at `n`. */
  lemma SignalCallsAreNotLost(states: seq<State>, events: seq<Event>, a: nat, n: nat, c: Cid) returns (i: nat)
    requires FreshRun(states, events) && Fifo(states, events) && a <= n <= |events|
    requires HasCond(states[n], c) && states[n].cv[c].incs < UINT
    requires SignalCalls(states, events, a, n, c) > 0
    ensures i < n && FirstIncrement(states, events, a, i, c)
    ensures var b := states[i].cv[c].incs;
            var waiters := Waiting(states[i], c, b);
            var k := SignalCalls(states, events, a, n, c);
            && Sleeping(states[n], c, b) <= waiters
            && |waiters - Sleeping(states[n], c, b)| >= if k < |waiters| then k else |waiters|
  {
    var j := SomeSignalReturns(states, events, a, n, c);
    var t := events[j].t;
    var b: nat :| a <= b < j && Calls(states, events, b, t, OpSignal(c)) && Busily(states, b, j + 1, t);
    var k := SignalCall(states, events, b, j + 1, t, c);
    i := FirstIncrementExists(states, events, a, k, c);
    CallsAreCompleted(states, events, a, i, n, c);
    SignalsAreNotLost(states, events, i, n, c);
  }

  lemma {:induction false} SomeSignalReturns(states: seq<State>, events: seq<Event>, a: nat, n: nat, c: Cid)
      returns (j: nat)
    requires IsRun(states, events) && a <= n <= |events| && SignalCalls(states, events, a, n, c) > 0
    ensures a <= j < n && SignalReturns(states, events, a, j, c)
  {
    if SignalReturns(states, events, a, n - 1, c) {
      j := n - 1;
    } else {
      j := SomeSignalReturns(states, events, a, n - 1, c);
    }
  }
}

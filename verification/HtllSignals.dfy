/**
 No signal is lost: with a first-in-first-out futex queue, k completed signals let go at least
 min(k, n) of the n threads that had read the sequence number before the first increment.
 */
module HtllSignals {
  import opened LockWord
  import opened HtllModel
  import opened HtllSafety
  import opened HtllRuns

  /** Asleep on `c->seq` since it held a number up to `b`. */
  predicate SleepsSince(s: State, t: Tid, c: Cid, b: nat) {
    t < |s.pc| && s.pc[t].CondAsleep? && s.pc[t].c == c && s.pc[t].ticket <= b
  }

  /** In a wait on `c` that has read a sequence number up to `b`, and not past its sleep. */
  predicate WaitsSince(s: State, t: Tid, c: Cid, b: nat) {
    || SleepsSince(s, t, c, b)
    || (t < |s.pc| && match s.pc[t]
                      case Binding(at, c', _, ticket, _) => at != ReadSeq && c' == c && ticket <= b
                      case Unlocking(_, _, ToSleep(c', ticket, _)) => c' == c && ticket <= b
                      case CondCall(c', _, ticket, _) => c' == c && ticket <= b
                      case _ => false)
  }

  ghost function Waiting(s: State, c: Cid, b: nat): set<Tid> {
    set t: Tid | t < |s.pc| && WaitsSince(s, t, c, b)
  }

  ghost function Sleeping(s: State, c: Cid, b: nat): set<Tid> {
    set t: Tid | t < |s.pc| && SleepsSince(s, t, c, b)
  }

  /** The queue of `c->seq` is sorted by the numbers read. */
  ghost predicate QueueSorted(s: State, c: Cid)
    requires HasCond(s, c)
  {
    var q := s.cv[c].q;
    forall i, j :: 0 <= i < j < |q| && q[i] < |s.pc| && q[j] < |s.pc|
                   && s.pc[q[i]].CondAsleep? && s.pc[q[j]].CondAsleep?
      ==> s.pc[q[i]].ticket <= s.pc[q[j]].ticket
  }

  /** First in, first out: wakes take the head of the queue. */
  ghost predicate Fifo(states: seq<State>, events: seq<Event>)
    requires IsRun(states, events)
  {
    forall i :: 0 <= i < |events| && events[i].t < |states[i].pc| && Signalling(states[i].pc[events[i].t])
      ==> events[i].ch.pick == 0
  }

  // ----- sleeping is refused exactly when the number has changed

  /** A `FUTEX_WAIT` on `c->seq` whose time is not over sleeps exactly when the number of increments since the
      read is a multiple of 2^32: below that it sleeps only if there was none. */
  lemma SleepsIffUnchanged(s: State, t: Tid, ch: Choice)
    requires Inv(s) && Enabled(s, t, ch) && s.pc[t].CondCall?
    ensures var p, s' := s.pc[t], Next(s, t, ch);
            var passed := s.cv[p.c].incs - p.ticket;
            && t < |s'.pc| && passed >= 0
            && (p.k.InTimedWait? && ch.late ==> s'.pc[t] == Remark(p.m, InLateWait))
            && (!(p.k.InTimedWait? && ch.late) ==>
                 s'.pc[t] == CondAsleep(p.c, p.m, p.ticket, p.k) || s'.pc[t] == Remark(p.m, p.k))
            && (!(p.k.InTimedWait? && ch.late) ==> (s'.pc[t].CondAsleep? <==> passed % UINT == 0))
            && (!(p.k.InTimedWait? && ch.late) && passed < UINT ==> (s'.pc[t].CondAsleep? <==> passed == 0))
  {
    assert ThreadOk(s, t);
    var a, b := s.cv[s.pc[t].c].incs, s.pc[t].ticket;
    SameModulo(a, b);
  }

  lemma SameModulo(a: nat, b: nat)
    requires b <= a
    ensures a % UINT == b % UINT <==> (a - b) % UINT == 0
  {
    var qa, qb, q := a / UINT, b / UINT, (a - b) / UINT;
    assert a == qa * UINT + a % UINT && b == qb * UINT + b % UINT && a - b == q * UINT + (a - b) % UINT;
  }

  // ----- the queue is sorted

  /** The numbers in a queue are at most the current one. */
  lemma QueuedNumbersAreOld(s: State, c: Cid)
    requires Inv(s) && HasCond(s, c)
    ensures var q := s.cv[c].q;
            forall i :: 0 <= i < |q| ==> q[i] < |s.pc| && s.pc[q[i]].CondAsleep? && s.pc[q[i]].ticket <= s.cv[c].incs
  {
    assert CondOk(s, c);
    forall i | 0 <= i < |s.cv[c].q| ensures s.pc[s.cv[c].q[i]].ticket <= s.cv[c].incs {
      assert ThreadOk(s, s.cv[c].q[i]);
    }
  }

  /** A waiter whose number is the current one goes to the end of the queue. */
  lemma AppendKeepsSorted(s: State, s': State, t: Tid, c: Cid)
    requires Inv(s) && HasCond(s, c) && HasCond(s', c) && QueueSorted(s, c) && t < |s.pc| == |s'.pc|
    requires s'.cv[c].q == s.cv[c].q + [t] && !s.pc[t].CondAsleep?
    requires s'.pc[t].CondAsleep? && s'.pc[t].ticket == s.cv[c].incs
    requires forall z: Tid :: z < |s.pc| && z != t ==> s'.pc[z] == s.pc[z]
    ensures QueueSorted(s', c)
  {
    QueuedNumbersAreOld(s, c);
  }

  lemma EnqueueKeepsSorted(s: State, t: Tid, ch: Choice, c: Cid)
    requires Inv(s) && t < |s.pc| && InRange(s, s.pc[t]) && HasCond(s, c) && QueueSorted(s, c) && s.cv[c].incs < UINT
    requires s.pc[t].Binding? || s.pc[t].CondCall?
    ensures HasCond(WaitStep(s, t, ch), c) && QueueSorted(WaitStep(s, t, ch), c)
  {
    assert ThreadOk(s, t) && CondOk(s, c);
    var s' := WaitStep(s, t, ch);
    if s'.cv[c].q == s.cv[c].q {
      KeptQueueSorted(s, s', c);
    } else {
      AppendKeepsSorted(s, s', t, c);
    }
  }

  lemma DequeueKeepsSorted(s: State, d: Cid, i: nat, c: Cid)
    requires Inv(s) && HasCond(s, d) && i < |s.cv[d].q| && HasCond(s, c) && QueueSorted(s, c)
    ensures HasCond(Dequeue(s, d, i), c) && QueueSorted(Dequeue(s, d, i), c)
  {
    assert CondOk(s, c) && CondOk(s, d);
  }

  /** A step that leaves the queue of `c` alone, or empties it. */
  lemma KeptQueueSorted(s: State, s': State, c: Cid)
    requires HasCond(s, c) && HasCond(s', c) && CondOk(s, c) && |s'.pc| == |s.pc| && QueueSorted(s, c)
    requires s'.cv[c].q == [] || s'.cv[c].q == s.cv[c].q
    requires s'.cv[c].q != [] ==>
      forall t: Tid :: t < |s.pc| && s.pc[t].CondAsleep? && s.pc[t].c == c ==> s'.pc[t] == s.pc[t]
    ensures QueueSorted(s', c)
  {
  }

  lemma SignalKeepsSorted(s: State, t: Tid, ch: Choice, c: Cid)
    requires Inv(s) && Enabled(s, t, ch) && HasCond(s, c) && QueueSorted(s, c) && Signalling(s.pc[t])
    ensures HasCond(SignalStep(s, t, ch), c) && QueueSorted(SignalStep(s, t, ch), c)
  {
    assert CondOk(s, c);
    var s' := SignalStep(s, t, ch);
    var d := s.pc[t].c;
    if s.pc[t].SignalWake? && s.cv[d].q != [] {
      DequeueKeepsSorted(s, d, ch.pick, c);
      DequeueKeepsCondOk(s, d, ch.pick, c);
      KeptQueueSorted(Dequeue(s, d, ch.pick), s', c);
    } else {
      if s.pc[t].BroadcastRequeue? { assert CondOk(s, d); }
      KeptQueueSorted(s, s', c);
    }
  }

  lemma QuietStepKeepsSorted(s: State, t: Tid, ch: Choice, c: Cid)
    requires Inv(s) && Enabled(s, t, ch) && HasCond(s, c) && QueueSorted(s, c)
    requires s.pc[t].Idle? || s.pc[t].Unlocking? || Locking(s.pc[t])
    ensures HasCond(Next(s, t, ch), c) && QueueSorted(Next(s, t, ch), c)
  {
    assert CondOk(s, c);
    KeptQueueSorted(s, Next(s, t, ch), c);
  }

  lemma StepKeepsSorted(s: State, t: Tid, ch: Choice, c: Cid)
    requires Inv(s) && Enabled(s, t, ch) && HasCond(s, c) && QueueSorted(s, c) && s.cv[c].incs < UINT
    ensures HasCond(Next(s, t, ch), c) && QueueSorted(Next(s, t, ch), c)
  {
    if s.pc[t].Idle? || s.pc[t].Unlocking? || Locking(s.pc[t]) {
      QuietStepKeepsSorted(s, t, ch, c);
    } else if s.pc[t].Binding? || s.pc[t].CondCall? {
      EnqueueKeepsSorted(s, t, ch, c);
    } else if s.pc[t].CondAsleep? {
      DequeueKeepsSorted(s, s.pc[t].c, ch.pick, c);
    } else {
      SignalKeepsSorted(s, t, ch, c);
    }
  }

  lemma {:induction false} RunKeepsSorted(states: seq<State>, events: seq<Event>, n: nat, c: Cid)
    requires FreshRun(states, events) && n <= |events|
    requires HasCond(states[n], c) && states[n].cv[c].incs < UINT
    ensures QueueSorted(states[n], c)
  {
    if n == 0 {
      var ms: nat, cs: nat, ts: nat :| states[0] == Init(ms, cs, ts);
      assert states[0].cv[c] == FreshCond();
    } else {
      RunEvolves(states, events, n - 1);
      RunKeepsSorted(states, events, n - 1, c);
      StepKeepsSorted(states[n - 1], events[n - 1].t, events[n - 1].ch, c);
    }
  }

  // ----- after an increment the old sleepers only get fewer

  lemma OthersDoNotFallAsleep(s: State, t: Tid, ch: Choice, c: Cid, b: nat, z: Tid)
    requires Inv(s) && Enabled(s, t, ch) && z != t && SleepsSince(Next(s, t, ch), z, c, b)
    ensures SleepsSince(s, z, c, b)
  {
    StepEvolves(s, t, ch);
    assert Bystander(s.pc[z], Next(s, t, ch).pc[z], s);
  }

  /** After an increment no thread falls asleep with an older number. */
  lemma ChangedNumberRefuses(s: State, t: Tid, ch: Choice, c: Cid, b: nat)
    requires Inv(s) && Enabled(s, t, ch) && HasCond(s, c) && b < s.cv[c].incs < UINT
    ensures t < |Next(s, t, ch).pc| && !SleepsSince(Next(s, t, ch), t, c, b)
  {
    assert ThreadOk(s, t);
    if s.pc[t].Binding? || s.pc[t].CondCall? {
      OldNumberRefuses(s, t, ch, c, b);
    } else if s.pc[t].CondAsleep? {
      assert CondOk(s, s.pc[t].c);
    } else {
      OnlyWaitersQueue(s, t, ch);
    }
  }

  lemma OldNumberRefuses(s: State, t: Tid, ch: Choice, c: Cid, b: nat)
    requires t < |s.pc| && InRange(s, s.pc[t]) && ThreadOk(s, t) && (s.pc[t].Binding? || s.pc[t].CondCall?)
    requires HasCond(s, c) && b < s.cv[c].incs < UINT
    ensures t < |WaitStep(s, t, ch).pc| && !SleepsSince(WaitStep(s, t, ch), t, c, b)
  {
  }

  lemma OnlyWaitersQueue(s: State, t: Tid, ch: Choice)
    requires Enabled(s, t, ch) && !s.pc[t].Binding? && !s.pc[t].CondCall? && !s.pc[t].CondAsleep?
    ensures t < |Next(s, t, ch).pc| && !Next(s, t, ch).pc[t].CondAsleep?
  {
  }

  lemma SleepersOnlyLeave(s: State, t: Tid, ch: Choice, c: Cid, b: nat)
    requires Inv(s) && Enabled(s, t, ch) && HasCond(s, c)
    requires b < s.cv[c].incs < UINT || s.pc[t].SignalInc? || s.pc[t].BroadcastInc?
    ensures Sleeping(Next(s, t, ch), c, b) <= Sleeping(s, c, b)
  {
    var s' := Next(s, t, ch);
    forall z: Tid | z in Sleeping(s', c, b) ensures z in Sleeping(s, c, b) {
      if z != t {
        OthersDoNotFallAsleep(s, t, ch, c, b, z);
      } else if !(s.pc[t].SignalInc? || s.pc[t].BroadcastInc?) {
        ChangedNumberRefuses(s, t, ch, c, b);
      }
    }
  }

  /** A wake at the head of the queue lets an old sleeper go while there is one. */
  lemma WakeTakesAnOldSleeper(s: State, t: Tid, ch: Choice, c: Cid, b: nat)
    requires Inv(s) && Enabled(s, t, ch) && HasCond(s, c) && QueueSorted(s, c)
    requires s.pc[t] == SignalWake(c) && ch.pick == 0 && Sleeping(s, c, b) != {}
    ensures s.cv[c].q != [] && s.cv[c].q[0] in Sleeping(s, c, b)
    ensures s.cv[c].q[0] !in Sleeping(Next(s, t, ch), c, b)
  {
    var z: Tid :| z in Sleeping(s, c, b);
    assert ThreadOk(s, z) && CondOk(s, c);
    var i :| 0 <= i < |s.cv[c].q| && s.cv[c].q[i] == z;
  }

  /** `FUTEX_WAKE` steps on `c->seq` among steps `a` to `n - 1`. */
  ghost function Wakes(states: seq<State>, events: seq<Event>, a: nat, n: nat, c: Cid): nat
    requires IsRun(states, events) && a <= n <= |events|
  {
    if n == a then 0
    else Wakes(states, events, a, n - 1, c) + if At(states, events, n - 1, SignalWake(c)) then 1 else 0
  }

  ghost predicate At(states: seq<State>, events: seq<Event>, i: nat, p: Pc)
    requires IsRun(states, events) && i < |events|
  {
    events[i].t < |states[i].pc| && states[i].pc[events[i].t] == p
  }

  /** Step `i` increments the number of `c`. */
  ghost predicate Increments(states: seq<State>, events: seq<Event>, i: nat, c: Cid)
    requires IsRun(states, events) && i < |events|
  {
    HasCond(states[i], c) && HasCond(states[i + 1], c) && states[i].cv[c].incs < states[i + 1].cv[c].incs
  }

  lemma OnlySignallersIncrement(s: State, t: Tid, ch: Choice, c: Cid)
    requires Inv(s) && Enabled(s, t, ch) && HasCond(s, c) && HasCond(Next(s, t, ch), c)
    requires s.cv[c].incs < Next(s, t, ch).cv[c].incs
    ensures s.pc[t] == SignalInc(c) || (s.pc[t].BroadcastInc? && s.pc[t].c == c)
  {
  }

  /** The increment itself lets nobody fall asleep or wake up. */
  lemma IncrementStep(states: seq<State>, events: seq<Event>, a: nat, c: Cid)
    requires FreshRun(states, events) && a < |events| && Increments(states, events, a, c)
    ensures Sleeping(states[a + 1], c, states[a].cv[c].incs) <= Sleeping(states[a], c, states[a].cv[c].incs)
    ensures Wakes(states, events, a, a + 1, c) == 0
  {
    RunEvolves(states, events, a);
    OnlySignallersIncrement(states[a], events[a].t, events[a].ch, c);
    SleepersOnlyLeave(states[a], events[a].t, events[a].ch, c, states[a].cv[c].incs);
    assert Wakes(states, events, a, a, c) == 0;
  }

  lemma NumberGrows(states: seq<State>, events: seq<Event>, i: nat, c: Cid)
    requires FreshRun(states, events) && i < |events| && HasCond(states[i + 1], c)
    ensures HasCond(states[i], c) && states[i].cv[c].incs <= states[i + 1].cv[c].incs
  {
    RunEvolves(states, events, i);
  }

  lemma {:induction false} OldSleepersDwindle(states: seq<State>, events: seq<Event>, a: nat, n: nat, c: Cid, b: nat)
    requires FreshRun(states, events) && Fifo(states, events) && a < n <= |events|
    requires Increments(states, events, a, c) && states[a].cv[c].incs == b
    requires HasCond(states[n], c) && states[n].cv[c].incs < UINT
    ensures b < states[n].cv[c].incs
    ensures Sleeping(states[n], c, b) <= Sleeping(states[a], c, b)
    ensures Sleeping(states[n], c, b) == {} ||
            |Sleeping(states[n], c, b)| + Wakes(states, events, a, n, c) <= |Sleeping(states[a], c, b)|
  {
    if n == a + 1 {
      IncrementStep(states, events, a, c);
      Subset(Sleeping(states[n], c, b), Sleeping(states[a], c, b));
    } else {
      NumberGrows(states, events, n - 1, c);
      OldSleepersDwindle(states, events, a, n - 1, c, b);
      OneStepDwindles(states, events, n - 1, c, b);
    }
  }

  lemma OneStepDwindles(states: seq<State>, events: seq<Event>, i: nat, c: Cid, b: nat)
    requires FreshRun(states, events) && Fifo(states, events) && i < |events|
    requires HasCond(states[i], c) && b < states[i].cv[c].incs < UINT
    ensures Sleeping(states[i + 1], c, b) <= Sleeping(states[i], c, b)
    ensures Sleeping(states[i], c, b) != {} ==>
      |Sleeping(states[i + 1], c, b)| + (if At(states, events, i, SignalWake(c)) then 1 else 0)
        <= |Sleeping(states[i], c, b)|
  {
    var s, e := states[i], events[i];
    RunEvolves(states, events, i);
    SleepersOnlyLeave(s, e.t, e.ch, c, b);
    var before, after := Sleeping(s, c, b), Sleeping(states[i + 1], c, b);
    if At(states, events, i, SignalWake(c)) && before != {} {
      RunKeepsSorted(states, events, i, c);
      WakeTakesAnOldSleeper(s, e.t, e.ch, c, b);
      Subset(after, before - {s.cv[c].q[0]});
    } else {
      Subset(after, before);
    }
  }

  lemma {:induction false} Subset(a: set<Tid>, b: set<Tid>)
    requires a <= b
    ensures |a| <= |b|
  {
    if a != {} {
      var x :| x in a;
      Subset(a - {x}, b - {x});
    }
  }

  /** Step `j` completes a signal that began its increment at step `a` or later. */
  ghost predicate CompletesSignal(states: seq<State>, events: seq<Event>, a: nat, j: nat, c: Cid)
    requires IsRun(states, events) && a <= j < |events|
  {
    && At(states, events, j, SignalWake(c))
    && exists i :: a <= i < j && events[i].t == events[j].t && At(states, events, i, SignalInc(c))
                   && forall k :: i < k < j ==> events[k].t != events[j].t
  }

  ghost function CompletedSignals(states: seq<State>, events: seq<Event>, a: nat, n: nat, c: Cid): (k: nat)
    requires IsRun(states, events) && a <= n <= |events|
    ensures k <= Wakes(states, events, a, n, c)
  {
    if n == a then 0
    else CompletedSignals(states, events, a, n - 1, c)
         + if CompletesSignal(states, events, a, n - 1, c) then 1 else 0
  }

  /** No signal is lost.  Let step `a` be the first of some increments.  Of the threads that
      wait on `c` at that point, asleep or not yet, all but those still asleep at `n` have been let go
      or are refused sleep (ChangedNumberRefuses); they are at least as many as the signals completed
      since, or all of them. */
  lemma SignalsAreNotLost(states: seq<State>, events: seq<Event>, a: nat, n: nat, c: Cid)
    requires FreshRun(states, events) && Fifo(states, events) && a < n <= |events|
    requires Increments(states, events, a, c)
    requires HasCond(states[n], c) && states[n].cv[c].incs < UINT
    ensures var b := states[a].cv[c].incs;
            var waiters := Waiting(states[a], c, b);
            var k := CompletedSignals(states, events, a, n, c);
            && Sleeping(states[n], c, b) <= waiters
            && |waiters - Sleeping(states[n], c, b)| >= if k < |waiters| then k else |waiters|
  {
    var b := states[a].cv[c].incs;
    var waiters, asleep := Waiting(states[a], c, b), Sleeping(states[n], c, b);
    OldSleepersDwindle(states, events, a, n, c, b);
    Subset(Sleeping(states[a], c, b), waiters);
    Difference(waiters, asleep);
  }

  lemma Difference(a: set<Tid>, b: set<Tid>)
    requires b <= a
    ensures |a| == |a - b| + |b|
  {
    assert a == (a - b) + b;
  }

  /** A broadcast that has incremented the number lets every earlier sleeper go when it requeues. */
  lemma BroadcastReleasesAll(s: State, t: Tid, ch: Choice, c: Cid, m: Mid, b: nat)
    requires Inv(s) && Enabled(s, t, ch) && s.pc[t] == BroadcastRequeue(c, m)
    ensures Sleeping(Next(s, t, ch), c, b) == {}
  {
    StepKeepsInv(s, t, ch);
    var s' := Next(s, t, ch);
    forall z: Tid | z < |s'.pc| ensures !SleepsSince(s', z, c, b) {
      assert ThreadOk(s', z);
    }
  }
}

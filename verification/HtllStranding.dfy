/**
 Nobody is left asleep on a free mutex, whoever locks it from inside segments, until a wake takes a thread
 that sleeps inside a segment and leaves another one without cover.  A run can make such a wake (see
 HtllStrandedRun).
 */
module HtllStranding {
  import opened LockWord
  import opened Options
  import opened HtllModel
  import opened HtllSafety
  import opened HtllRuns
  import opened HtllCover

  /** `t` is in a call that locks `m` from inside a segment. */
  predicate LocksInSegment(p: Pc, m: Mid) {
    match p
    case Spin(m', inSegment, _) => m' == m && inSegment
    case Mark(m', inSegment) => m' == m && inSegment
    case NapCall(m') => m' == m
    case Napping(m') => m' == m
    case NapDone(m') => m' == m
    case _ => false
  }

  ghost predicate Untimed(s: State, m: Mid) {
    forall t: Tid :: t < |s.pc| ==> !LocksInSegment(s.pc[t], m)
  }

  // ----- runs

  /** No call in the run locks `m` from inside a segment: what a client can check. */
  ghost predicate NoSegmentLocks(states: seq<State>, events: seq<Event>, m: Mid)
    requires IsRun(states, events)
  {
    forall i :: 0 <= i < |events| && events[i].t < |states[i].pc| && states[i].pc[events[i].t].Idle?
      ==> events[i].ch.op != OpLock(m, true)
  }

  lemma LockerStaysUntimed(s: State, t: Tid, ch: Choice, m: Mid)
    requires t < |s.pc| && InRange(s, s.pc[t]) && Locking(s.pc[t]) && !LocksInSegment(s.pc[t], m)
    ensures t < |LockStep(s, t, ch).pc| && !LocksInSegment(LockStep(s, t, ch).pc[t], m)
  {
  }

  lemma OthersStayUntimed(s: State, t: Tid, ch: Choice, m: Mid)
    requires Enabled(s, t, ch) && !Locking(s.pc[t]) && t < |Next(s, t, ch).pc|
    requires s.pc[t].Idle? ==> ch.op != OpLock(m, true)
    ensures !LocksInSegment(Next(s, t, ch).pc[t], m)
  {
  }

  lemma StepKeepsUntimed(s: State, t: Tid, ch: Choice, m: Mid)
    requires Inv(s) && Enabled(s, t, ch) && Untimed(s, m)
    requires s.pc[t].Idle? ==> ch.op != OpLock(m, true)
    ensures Untimed(Next(s, t, ch), m)
  {
    StepEvolves(s, t, ch);
    assert !LocksInSegment(s.pc[t], m);
    if Locking(s.pc[t]) { LockerStaysUntimed(s, t, ch, m); } else { OthersStayUntimed(s, t, ch, m); }
    OthersStayOutside(s, Next(s, t, ch), t, m);
  }

  lemma OthersStayOutside(s: State, s': State, t: Tid, m: Mid)
    requires Evolves(s, s', t) && Untimed(s, m) && !LocksInSegment(s'.pc[t], m)
    ensures Untimed(s', m)
  {
    forall t': Tid | t' < |s'.pc| && t' != t ensures !LocksInSegment(s'.pc[t'], m) {
      assert !LocksInSegment(s.pc[t'], m) && Bystander(s.pc[t'], s'.pc[t'], s);
    }
  }

  lemma FreshIsQuiet(s: State, m: Mid)
    requires StartsFresh(s) && HasMutex(s, m)
    ensures J(s, m) && Untimed(s, m) && K(s, m)
  {
    var ms: nat, cs: nat, ts: nat :| s == Init(ms, cs, ts);
    assert s.mx[m] == FreshMutex();
  }

  lemma {:induction false} RunKeepsJ(states: seq<State>, events: seq<Event>, n: nat, m: Mid)
    requires FreshRun(states, events) && n <= |events| && HasMutex(states[n], m)
    ensures J(states[n], m)
  {
    if n == 0 {
      FreshIsQuiet(states[0], m);
    } else {
      RunShape(states, events, n - 1, n);
      RunKeepsJ(states, events, n - 1, m);
      RunEvolves(states, events, n - 1);
      StepKeepsJ(states[n - 1], events[n - 1].t, events[n - 1].ch, m);
    }
  }

  /** Step `i` is a wake on `m` that takes a thread sleeping inside a segment, while another one stays
      asleep that nothing else covers. */
  ghost predicate UncoversAt(states: seq<State>, events: seq<Event>, i: nat, m: Mid)
    requires IsRun(states, events) && i < |events|
  {
    && HasMutex(states[i], m)
    && OnlyCover(states[i], events[i].t, m)
    && WakesNapper(states[i], events[i].t, events[i].ch, m)
  }

  lemma {:induction false} RunKeepsK(states: seq<State>, events: seq<Event>, n: nat, m: Mid)
    requires FreshRun(states, events) && n <= |events| && HasMutex(states[n], m)
    requires forall i :: 0 <= i < n ==> !UncoversAt(states, events, i, m)
    ensures K(states[n], m)
  {
    if n == 0 {
      FreshIsQuiet(states[0], m);
    } else {
      RunShape(states, events, n - 1, n);
      RunKeepsK(states, events, n - 1, m);
      RunEvolves(states, events, n - 1);
      assert !UncoversAt(states, events, n - 1, m);
      StepKeepsK(states[n - 1], events[n - 1].t, events[n - 1].ch, m);
    }
  }

  /** K holds throughout a run exactly if no wake of the run takes a thread that sleeps inside a segment
      while it is all that covers another sleeper. */
  lemma RunKeepsKIff(states: seq<State>, events: seq<Event>, m: Mid)
    requires FreshRun(states, events) && HasMutex(states[0], m)
    ensures (forall n :: 0 <= n <= |events| ==> HasMutex(states[n], m) && K(states[n], m))
            <==> forall i :: 0 <= i < |events| ==> !UncoversAt(states, events, i, m)
  {
    forall n | 0 <= n <= |events| ensures HasMutex(states[n], m) { RunShape(states, events, 0, n); }
    if i :| 0 <= i < |events| && UncoversAt(states, events, i, m) {
      if K(states[i], m) {
        RunEvolves(states, events, i);
        StepBreaksKIff(states[i], events[i].t, events[i].ch, m);
        assert !K(states[i + 1], m);
      }
    } else {
      forall n | 0 <= n <= |events| ensures K(states[n], m) { RunKeepsK(states, events, n, m); }
    }
  }

  /** No stranded sleeper, whoever locks from inside segments: when the mutex is free and someone sleeps
      on it, some unlocker has yet to finish its wake, or some thread is about to mark the word again,
      unless an earlier wake was all that covered two sleepers and took one that slept inside a segment. */
  lemma NoStrandedSleeper(states: seq<State>, events: seq<Event>, n: nat, m: Mid)
    requires FreshRun(states, events) && n <= |events| && HasMutex(states[n], m)
    requires forall i :: 0 <= i < n ==> !UncoversAt(states, events, i, m)
    requires states[n].mx[m].w.locked == UNLOCKED && SomeoneSleeps(states[n], m)
    ensures exists t: Tid :: Releasing(states[n], t, m) || Waking(states[n], t, m) || Remarking(states[n], t, m)
  {
    RunKeepsJ(states, events, n, m);
    RunKeepsK(states, events, n, m);
  }

  /** Everyone is asleep on `m` or outside any call, `m` is free, and someone does sleep. */
  ghost predicate Stranded(s: State, m: Mid) {
    && HasMutex(s, m)
    && s.mx[m].w.locked == UNLOCKED
    && SomeoneSleeps(s, m)
    && forall t: Tid :: t < |s.pc| ==> SleepsOn(s, t, m) || s.pc[t].Idle?
  }

  /** Whenever a run strands a sleeper, an earlier wake was the only cover of two sleepers and took one
      that sleeps inside a segment. */
  lemma StrandedAfterNapperWake(states: seq<State>, events: seq<Event>, n: nat, m: Mid)
    requires FreshRun(states, events) && n <= |events| && Stranded(states[n], m)
    ensures exists i :: 0 <= i < n && UncoversAt(states, events, i, m)
  {
    if forall i :: 0 <= i < n ==> !UncoversAt(states, events, i, m) {
      RunKeepsJ(states, events, n, m);
      RunKeepsK(states, events, n, m);
      assert false;
    }
  }

  // ----- two conditions that a client can check

  lemma {:induction false} RunStaysUntimed(states: seq<State>, events: seq<Event>, n: nat, m: Mid)
    requires FreshRun(states, events) && n <= |events| && HasMutex(states[0], m)
    requires NoSegmentLocks(states, events, m)
    ensures Untimed(states[n], m)
  {
    if n == 0 {
      FreshIsQuiet(states[0], m);
    } else {
      RunStaysUntimed(states, events, n - 1, m);
      RunEvolves(states, events, n - 1);
      StepKeepsUntimed(states[n - 1], events[n - 1].t, events[n - 1].ch, m);
    }
  }

  /** Nobody is stranded if no call locks `m` from inside a segment. */
  lemma UntimedRunsStrandNobody(states: seq<State>, events: seq<Event>, n: nat, m: Mid)
    requires FreshRun(states, events) && n <= |events|
    requires NoSegmentLocks(states, events, m)
    ensures !Stranded(states[n], m)
  {
    if Stranded(states[n], m) {
      StrandedAfterNapperWake(states, events, n, m);
      var i :| 0 <= i < n && UncoversAt(states, events, i, m);
      RunShape(states, events, 0, i);
      RunStaysUntimed(states, events, i, m);
      var z: Tid :| TakesNapper(states[i], events[i].t, events[i].ch, m, z);
      assert LocksInSegment(states[i].pc[events[i].ch.pick], m);
    }
  }

  /** Nor if there are only two threads: the waker, the one that it takes and the one that stays asleep
      are three. */
  lemma TwoThreadsStrandNobody(states: seq<State>, events: seq<Event>, n: nat, m: Mid)
    requires FreshRun(states, events) && n <= |events| && |states[0].pc| <= 2
    ensures !Stranded(states[n], m)
  {
    if Stranded(states[n], m) {
      StrandedAfterNapperWake(states, events, n, m);
      var i :| 0 <= i < n && UncoversAt(states, events, i, m);
      RunShape(states, events, 0, i);
      var z: Tid :| TakesNapper(states[i], events[i].t, events[i].ch, m, z);
    }
  }
}

/**
 Runs written out step by step: what three of the threads of a system do with one of its mutexes, in a
 system of any size whose other threads make no call.
 */
module HtllScenes {
  import opened LockWord
  import opened Options
  import opened HtllModel
  import opened HtllRuns

  function Pick(t: Tid): Choice { Choice(OpSignal(0), 0, t, 0, 0, false) }

  function Call(op: Op): Choice { Choice(op, 0, 0, 0, 0, false) }

  function Lock(m: Mid): Choice { Call(OpLock(m, false)) }

  function SegmentLock(m: Mid): Choice { Call(OpLock(m, true)) }

  function Unlock(m: Mid): Choice { Call(OpUnlock(m)) }

  const FREE := Word(0, 0)
  const HELD := Word(1, 0)
  const MARKED_FREE := Word(0, 1)
  const MARKED := Word(1, 1)

  /** Mutex `m` is `x`, threads 0, 1 and 2 are at `p0`, `p1` and `p2`, and the others are outside any
      call. */
  ghost predicate Scene(s: State, m: Mid, x: Mutex, p0: Pc, p1: Pc, p2: Pc) {
    && HasMutex(s, m) && s.mx[m] == x
    && 3 <= |s.pc| && s.pc[0] == p0 && s.pc[1] == p1 && s.pc[2] == p2
    && forall t: Tid :: 3 <= t < |s.pc| ==> s.pc[t].Idle?
  }

  /** A run from `s` that ends in the given scene. */
  ghost predicate Plays(states: seq<State>, events: seq<Event>, s: State, m: Mid, x: Mutex, p0: Pc, p1: Pc, p2: Pc) {
    FreshRun(states, events) && states[0] == s && Scene(states[|events|], m, x, p0, p1, p2)
  }

  /** No step of the run is the end of an unlock that wakes (lines 134-135), so `cnt_wake` stays 0. */
  ghost predicate NobodyWakes(states: seq<State>, events: seq<Event>)
    requires |states| == |events| + 1
  {
    forall i :: 0 <= i < |events| && events[i].t < |states[i].pc| ==> !AboutToWake(states[i].pc[events[i].t])
  }

  predicate AboutToWake(p: Pc) { p.Unlocking? && p.at.Wake? }

  /** The step of thread `t` that leads from one scene to another. */
  lemma Then(states: seq<State>, events: seq<Event>, t: Tid, ch: Choice, m: Mid, x: Mutex, p0: Pc, p1: Pc, p2: Pc)
      returns (states': seq<State>, events': seq<Event>)
    requires FreshRun(states, events) && Enabled(states[|events|], t, ch)
    requires Scene(Next(states[|events|], t, ch), m, x, p0, p1, p2)
    ensures Plays(states', events', states[0], m, x, p0, p1, p2)
    ensures states <= states'
    ensures NobodyWakes(states, events) && !AboutToWake(states[|events|].pc[t]) ==> NobodyWakes(states', events')
  {
    Extend(states, events, t, ch);
    states', events' := states + [Next(states[|events|], t, ch)], events + [Event(t, ch)];
  }

  /** What an unlock of `x` by a caller that wants nothing else does next, before its wake. */
  function UnlockTurn(x: Mutex, m: Mid, at: UStage): (Mutex, Pc) {
    (UnlockEffect(x, at, Unlock(m)),
     match NextStage(x, at) case None => Idle(Ok) case Some(n) => Unlocking(n, m, ToCaller))
  }

  /** The next access of an unlock that one of the three threads is in, before its wake. */
  lemma ThenUnlocks(states: seq<State>, events: seq<Event>, t: Tid, at: UStage, m: Mid, x: Mutex, p0: Pc, p1: Pc, p2: Pc)
      returns (states': seq<State>, events': seq<Event>)
    requires FreshRun(states, events) && Scene(states[|events|], m, x, p0, p1, p2)
    requires t < 3 && states[|events|].pc[t] == Unlocking(at, m, ToCaller) && !at.Wake?
    ensures var (x', p) := UnlockTurn(x, m, at);
            Plays(states', events', states[0], m, x', if t == 0 then p else p0, if t == 1 then p else p1,
                  if t == 2 then p else p2)
    ensures states <= states' && (NobodyWakes(states, events) ==> NobodyWakes(states', events'))
  {
    var (x', p) := UnlockTurn(x, m, at);
    assert Next(states[|events|], t, Unlock(m)) == UnlockStep(states[|events|], t, Unlock(m));
    states', events' := Then(states, events, t, Unlock(m), m, x', if t == 0 then p else p0,
                             if t == 1 then p else p1, if t == 2 then p else p2);
  }

  /** Thread 0 takes the mutex. */
  lemma FirstLocks(ms: nat, cs: nat, ts: nat, m: Mid) returns (states: seq<State>, events: seq<Event>)
    requires m < ms && ts >= 3
    ensures Plays(states, events, Init(ms, cs, ts), m, FreshMutex().(w := HELD, owner := Some(0)), Idle(Ok), Idle(Ok), Idle(Ok))
    ensures NobodyWakes(states, events)
  {
    states, events := [Init(ms, cs, ts)], [];
    var x := FreshMutex();
    assert Scene(states[0], m, x, Idle(Ok), Idle(Ok), Idle(Ok));
    states, events := Then(states, events, 0, Lock(m), m, x, Spin(m, false, 1), Idle(Ok), Idle(Ok));
    states, events := Then(states, events, 0, Lock(m), m, x.(w := HELD, owner := Some(0)), Idle(Ok), Idle(Ok), Idle(Ok));
  }

  /** Thread 1, outside any segment, finds it taken. */
  lemma SecondSpins(ms: nat, cs: nat, ts: nat, m: Mid) returns (states: seq<State>, events: seq<Event>)
    requires m < ms && ts >= 3
    ensures Plays(states, events, Init(ms, cs, ts), m, FreshMutex().(w := HELD, owner := Some(0)),
                  Idle(Ok), Mark(m, false), Idle(Ok))
    ensures NobodyWakes(states, events)
  {
    states, events := FirstLocks(ms, cs, ts, m);
    var x, p := FreshMutex().(w := HELD, owner := Some(0)), Idle(Ok);
    states, events := Then(states, events, 1, Lock(m), m, x, p, Spin(m, false, 1), p);
    states, events := Then(states, events, 1, Lock(m), m, x, p, Spin(m, false, 0), p);
    states, events := Then(states, events, 1, Lock(m), m, x, p, Mark(m, false), p);
  }

  /** It marks the word and falls asleep. */
  lemma SecondSleeps(ms: nat, cs: nat, ts: nat, m: Mid) returns (states: seq<State>, events: seq<Event>)
    requires m < ms && ts >= 3
    ensures Plays(states, events, Init(ms, cs, ts), m, FreshMutex().(w := MARKED, owner := Some(0)),
                  Idle(Ok), Asleep(m, m, InLock), Idle(Ok))
    ensures NobodyWakes(states, events)
  {
    states, events := SecondSpins(ms, cs, ts, m);
    var x, p := FreshMutex().(w := MARKED, owner := Some(0)), Idle(Ok);
    states, events := Then(states, events, 1, Lock(m), m, x, p, Remark(m, InLock), p);
    states, events := Then(states, events, 1, Lock(m), m, x, p, WaitCall(m, InLock), p);
    states, events := Then(states, events, 1, Lock(m), m, x, p, Asleep(m, m, InLock), p);
  }
}

/**
 How far the envelope of the spin budget reaches.  Two threads that hand a contended mutex to each other,
 while a third sleeps, unlock on the slow path every time and never get as far as a wake.  So `cnt_wake`
 is 0 at every adjustment, and the unsigned budget goes down until it wraps around.
 */
module HtllSpinBudget {
  import opened LockWord
  import opened Options
  import opened HtllModel
  import opened HtllSafety
  import opened HtllRuns
  import opened HtllScenes

  // ----- the budget, exactly

  /** How many of the first `n` steps are an adjustment of `m` that reads more than 32 wakeups. */
  ghost function Raises(states: seq<State>, events: seq<Event>, n: nat, m: Mid): nat
    requires IsRun(states, events) && n <= |events|
  {
    if n == 0 then 0
    else Raises(states, events, n - 1, m) +
         if UnlocksAt(states, events, n - 1, m, false) && events[n - 1].ch.wakes0 > 32 then 1 else 0
  }

  /** And how many are one that does not, and then reads fewer than 16. */
  ghost function Lowers(states: seq<State>, events: seq<Event>, n: nat, m: Mid): nat
    requires IsRun(states, events) && n <= |events|
  {
    if n == 0 then 0
    else Lowers(states, events, n - 1, m) +
         if UnlocksAt(states, events, n - 1, m, false) && events[n - 1].ch.wakes0 <= 32 && events[n - 1].ch.wakes1 < 16
         then 1 else 0
  }

  lemma WrapAdd(b: int, d: int)
    ensures (b % UINT + d) % UINT == (b + d) % UINT
  {
    var q, r := b / UINT, (b % UINT + d) / UINT;
    assert b == q * UINT + b % UINT;
    assert b + d == (q + r) * UINT + (b % UINT + d) % UINT;
  }

  /** One step moves the budget only if it is an adjustment. */
  lemma StepTicks(s: State, t: Tid, ch: Choice, m: Mid)
    requires Inv(s) && Enabled(s, t, ch) && HasMutex(s, m)
    ensures HasMutex(Next(s, t, ch), m)
    ensures var x, x' := s.mx[m], Next(s, t, ch).mx[m];
            x'.ticks == if s.pc[t].Unlocking? && s.pc[t].m == m && s.pc[t].at.Adjust?
                        then AdjustTicks(x.ticks, ch.wakes0, ch.wakes1) else x.ticks
  {
    if Locking(s.pc[t]) { assert WordOk(s.mx[m]); LockStepWord(s, t, ch, m); }
  }

  lemma AdjustsExactly(b: int, wakes0: nat, wakes1: nat)
    ensures AdjustTicks(b % UINT, wakes0, wakes1) ==
            (b + (if wakes0 > 32 then 512 else if wakes1 < 16 then -256 else 0)) % UINT
  {
    WrapAdd(b, 512);
    WrapAdd(b, -256);
  }

  /** In any run the budget is 8192, plus 512 for each adjustment so far that read more than 32 wakeups, minus
      256 for each that read fewer than 16, modulo 2^32: none is lost, whoever unlocks when. */
  lemma {:induction false} BudgetIsExact(states: seq<State>, events: seq<Event>, n: nat, m: Mid)
    requires FreshRun(states, events) && n <= |events| && HasMutex(states[n], m)
    ensures states[n].mx[m].ticks ==
            (8192 + 512 * Raises(states, events, n, m) - 256 * Lowers(states, events, n, m)) % 0x1_0000_0000
  {
    if n == 0 {
      var ms: nat, cs: nat, ts: nat :| states[0] == Init(ms, cs, ts);
      assert states[0].mx[m] == FreshMutex();
    } else {
      RunShape(states, events, n - 1, n);
      BudgetIsExact(states, events, n - 1, m);
      RunInv(states, events, n - 1);
      assert StepAt(states, events, n - 1);
      var t, ch := events[n - 1].t, events[n - 1].ch;
      StepTicks(states[n - 1], t, ch, m);
      AdjustsExactly(8192 + 512 * Raises(states, events, n - 1, m) - 256 * Lowers(states, events, n - 1, m), ch.wakes0, ch.wakes1);
    }
  }

  // ----- a run in which it only goes down

  /** The budget after `n` adjustments that all find few wakeups. */
  function Starved(n: nat): int { if n == 0 then SPIN_TRIES_LOCK else AdjustTicks(Starved(n - 1), 0, 0) }

  /** It goes down to 0 in 32 adjustments, and the next one takes it to 2^32 - 256. */
  lemma {:induction false} StarvedTicks(n: nat)
    ensures Starved(n) == (SPIN_TRIES_LOCK - DECREASE_UNIT * n) % UINT
  {
    if n > 0 {
      StarvedTicks(n - 1);
      WrapAdd(SPIN_TRIES_LOCK - DECREASE_UNIT * (n - 1), -DECREASE_UNIT);
    }
  }

  /** The mutex held by `h`, marked, after `k` slow unlocks that found no wakeups. */
  function Handed(h: Tid, k: nat): Mutex {
    Mutex(MARKED, Starved(k / ADJUST_PERIOD), k % UINT, Some(h), k, k / ADJUST_PERIOD)
  }

  const SLEEPER := Asleep(0, 0, InLock)

  /** Thread 1 sleeps on mutex 0; thread `h` is at `ph` and the other one of 0 and 2 at `pg`. */
  ghost predicate Relay(states: seq<State>, events: seq<Event>, h: Tid, x: Mutex, ph: Pc, pg: Pc) {
    && FreshRun(states, events) && NobodyWakes(states, events)
    && (h == 0 || h == 2)
    && Scene(states[|events|], 0, x, if h == 0 then ph else pg, SLEEPER, if h == 0 then pg else ph)
  }

  function U(at: UStage): Pc { Unlocking(at, 0, ToCaller) }

  /** The next access of the unlock that `h` is in. */
  lemma HolderMoves(states: seq<State>, events: seq<Event>, h: Tid, at: UStage, x: Mutex, pg: Pc)
      returns (states': seq<State>, events': seq<Event>)
    requires Relay(states, events, h, x, U(at), pg) && !at.Wake?
    ensures var (x', ph) := UnlockTurn(x, 0, at);
            Relay(states', events', h, x', ph, pg) && states <= states'
  {
    if h == 0 {
      states', events' := ThenUnlocks(states, events, 0, at, 0, x, U(at), SLEEPER, pg);
    } else {
      states', events' := ThenUnlocks(states, events, 2, at, 0, x, pg, SLEEPER, U(at));
    }
  }

  /** The other thread begins to lock, and the holder to unlock. */
  lemma Begin(states: seq<State>, events: seq<Event>, h: Tid, x: Mutex)
      returns (states': seq<State>, events': seq<Event>)
    requires Relay(states, events, h, x, Idle(Ok), Idle(Ok)) && x.owner == Some(h)
    ensures Relay(states', events', h, x, U(Look), Spin(0, false, 1)) && states <= states'
  {
    if h == 0 {
      states', events' := Then(states, events, 2, Lock(0), 0, x, Idle(Ok), SLEEPER, Spin(0, false, 1));
      states', events' := Then(states', events', 0, Unlock(0), 0, x, U(Look), SLEEPER, Spin(0, false, 1));
    } else {
      states', events' := Then(states, events, 0, Lock(0), 0, x, Spin(0, false, 1), SLEEPER, Idle(Ok));
      states', events' := Then(states', events', 2, Unlock(0), 0, x, Spin(0, false, 1), SLEEPER, U(Look));
    }
  }

  /** The spinning thread takes the mutex as soon as the byte is free. */
  lemma SpinnerTakes(states: seq<State>, events: seq<Event>, h: Tid, x: Mutex)
      returns (states': seq<State>, events': seq<Event>)
    requires Relay(states, events, h, x, U(Peek1), Spin(0, false, 1)) && x.w == MARKED_FREE
    ensures Relay(states', events', h, x.(w := MARKED, owner := Some(2 - h)), U(Peek1), Idle(Ok)) && states <= states'
  {
    var x' := x.(w := MARKED, owner := Some(2 - h));
    if h == 0 {
      states', events' := Then(states, events, 2, Lock(0), 0, x', U(Peek1), SLEEPER, Idle(Ok));
    } else {
      states', events' := Then(states, events, 0, Lock(0), 0, x', Idle(Ok), SLEEPER, U(Peek1));
    }
  }

  /** One more slow unlock counted, and one more adjustment that finds few wakeups if it is due. */
  function Counted(x: Mutex): Mutex { x.(cntUnlock := (x.cntUnlock + 1) % UINT, slow := x.slow + 1) }

  function Adjusted(x: Mutex): Mutex {
    if x.cntUnlock % ADJUST_PERIOD == 0
    then x.(ticks := AdjustTicks(x.ticks, 0, 0), adjusts := x.adjusts + 1)
    else x
  }

  lemma CountedAndAdjusted(h: Tid, k: nat)
    ensures Adjusted(Counted(Handed(h, k))) == Handed(h, k + 1)
  {
    CountOneMore(k, k / ADJUST_PERIOD);
    WrapKeepsPeriod(k + 1);
  }

  /** The holder reads the word and the counter. */
  lemma Loads(states: seq<State>, events: seq<Event>, h: Tid, x: Mutex)
      returns (states': seq<State>, events': seq<Event>)
    requires Relay(states, events, h, x, U(Look), Spin(0, false, 1)) && x.w == MARKED
    ensures Relay(states', events', h, x, U(Store(x.cntUnlock)), Spin(0, false, 1)) && states <= states'
  {
    assert UnlockTurn(x, 0, Look) == (x, U(Load)) && UnlockTurn(x, 0, Load) == (x, U(Store(x.cntUnlock)));
    states', events' := HolderMoves(states, events, h, Look, x, Spin(0, false, 1));
    states', events' := HolderMoves(states', events', h, Load, x, Spin(0, false, 1));
  }

  /** The holder counts. */
  lemma Counts(states: seq<State>, events: seq<Event>, h: Tid, x: Mutex)
      returns (states': seq<State>, events': seq<Event>)
    requires Relay(states, events, h, x, U(Store(x.cntUnlock)), Spin(0, false, 1))
    ensures Relay(states', events', h, Counted(x), U(Test), Spin(0, false, 1)) && states <= states'
  {
    assert UnlockTurn(x, 0, Store(x.cntUnlock)) == (Counted(x), U(Test));
    states', events' := HolderMoves(states, events, h, Store(x.cntUnlock), x, Spin(0, false, 1));
  }

  /** It adjusts the budget if that is due. */
  lemma Adjusts(states: seq<State>, events: seq<Event>, h: Tid, x: Mutex)
      returns (states': seq<State>, events': seq<Event>)
    requires Relay(states, events, h, x, U(Test), Spin(0, false, 1))
    ensures Relay(states', events', h, Adjusted(x), U(Release), Spin(0, false, 1)) && states <= states'
  {
    var due := x.cntUnlock % ADJUST_PERIOD == 0;
    assert UnlockTurn(x, 0, Test) == (x, U(if due then Adjust else Release));
    assert due ==> UnlockTurn(x, 0, Adjust) == (Adjusted(x), U(Release));
    states', events' := HolderMoves(states, events, h, Test, x, Spin(0, false, 1));
    if due { states', events' := HolderMoves(states', events', h, Adjust, x, Spin(0, false, 1)); }
  }

  /** It releases the lock byte, and the other thread takes it before the holder looks. */
  lemma Releases(states: seq<State>, events: seq<Event>, h: Tid, x: Mutex)
      returns (states': seq<State>, events': seq<Event>)
    requires Relay(states, events, h, x, U(Release), Spin(0, false, 1)) && x.w == MARKED
    ensures Relay(states', events', h, x.(owner := Some(2 - h)), U(Peek1), Idle(Ok)) && states <= states'
  {
    var free := x.(w := MARKED_FREE, owner := None);
    assert UnlockTurn(x, 0, Release) == (free, U(Peek1));
    assert free.(w := MARKED, owner := Some(2 - h)) == x.(owner := Some(2 - h));
    states', events' := HolderMoves(states, events, h, Release, x, Spin(0, false, 1));
    states', events' := SpinnerTakes(states', events', h, free);
  }

  /** It finds the byte taken and returns. */
  lemma Returns(states: seq<State>, events: seq<Event>, h: Tid, x: Mutex)
      returns (states': seq<State>, events': seq<Event>)
    requires Relay(states, events, h, x, U(Peek1), Idle(Ok)) && x.w == MARKED
    ensures Relay(states', events', 2 - h, x, Idle(Ok), Idle(Ok)) && states <= states'
  {
    assert UnlockTurn(x, 0, Peek1) == (x, Idle(Ok));
    states', events' := HolderMoves(states, events, h, Peek1, x, Idle(Ok));
  }

  lemma HandsOver(states: seq<State>, events: seq<Event>, h: Tid, x: Mutex)
      returns (states': seq<State>, events': seq<Event>)
    requires Relay(states, events, h, x, U(Release), Spin(0, false, 1)) && x.w == MARKED
    ensures Relay(states', events', 2 - h, x.(owner := Some(2 - h)), Idle(Ok), Idle(Ok)) && states <= states'
  {
    states', events' := Releases(states, events, h, x);
    states', events' := Returns(states', events', h, x.(owner := Some(2 - h)));
  }

  /** The slow path up to the release. */
  lemma ReachesRelease(states: seq<State>, events: seq<Event>, h: Tid, x: Mutex)
      returns (states': seq<State>, events': seq<Event>)
    requires Relay(states, events, h, x, U(Look), Spin(0, false, 1)) && x.w == MARKED
    ensures Relay(states', events', h, Adjusted(Counted(x)), U(Release), Spin(0, false, 1)) && states <= states'
  {
    states', events' := Loads(states, events, h, x);
    states', events' := Counts(states', events', h, x);
    states', events' := Adjusts(states', events', h, Counted(x));
  }

  /** One round: `h` unlocks on the slow path, and the other thread is the holder then. */
  lemma Round(states: seq<State>, events: seq<Event>, h: Tid, k: nat)
      returns (states': seq<State>, events': seq<Event>)
    requires Relay(states, events, h, Handed(h, k), Idle(Ok), Idle(Ok))
    ensures Relay(states', events', 2 - h, Handed(2 - h, k + 1), Idle(Ok), Idle(Ok)) && states <= states'
  {
    CountedAndAdjusted(h, k);
    states', events' := Begin(states, events, h, Handed(h, k));
    states', events' := ReachesRelease(states', events', h, Handed(h, k));
    states', events' := HandsOver(states', events', h, Handed(h, k + 1));
  }

  /** Any number of rounds. */
  lemma {:induction false} Rounds(states: seq<State>, events: seq<Event>, h: Tid, k: nat, n: nat)
      returns (states': seq<State>, events': seq<Event>, h': Tid)
    requires k <= n && Relay(states, events, h, Handed(h, k), Idle(Ok), Idle(Ok))
    ensures Relay(states', events', h', Handed(h', n), Idle(Ok), Idle(Ok)) && states <= states'
    decreases n - k
  {
    if k == n {
      states', events', h' := states, events, h;
    } else {
      states', events' := Round(states, events, h, k);
      states', events', h' := Rounds(states', events', 2 - h, k + 1, n);
    }
  }

  /** Any number of rounds from the start. */
  lemma StarvedRun(n: nat) returns (states: seq<State>, events: seq<Event>, h: Tid)
    ensures Relay(states, events, h, Handed(h, n), Idle(Ok), Idle(Ok))
  {
    states, events := SecondSleeps(1, 0, 3, 0);
    assert Handed(0, 0) == FreshMutex().(w := MARKED, owner := Some(0));
    states, events, h := Rounds(states, events, 0, 0, n);
  }

  /** A run with the budget below the envelope half-way. */
  lemma StarvedThenMore(a: nat, b: nat) returns (states: seq<State>, events: seq<Event>, n: nat)
    requires a <= b
    ensures FreshRun(states, events) && NobodyWakes(states, events) && n <= |events|
    ensures HasMutex(states[n], 0) && states[n].mx[0].slow == a
    ensures states[n].mx[0].ticks == (SPIN_TRIES_LOCK - DECREASE_UNIT * (a / ADJUST_PERIOD)) % UINT
    ensures HasMutex(states[|events|], 0) && states[|events|].mx[0].slow == b
  {
    var states1, events1, h := StarvedRun(a);
    n := |events1|;
    states, events, h := Rounds(states1, events1, h, a, b);
    assert states[n] == states1[n];
    StarvedTicks(a / ADJUST_PERIOD);
  }

  /** For any number of slow unlocks from 33 * 2048 on, a run that makes so many, in which nobody ever
      gets as far as a wake, and in which the budget is 2^32 - 256 after 33 * 2048 of them. */
  lemma SpinBudgetWraps(slow: nat) returns (states: seq<State>, events: seq<Event>, n: nat)
    requires slow >= 33 * ADJUST_PERIOD
    ensures FreshRun(states, events) && NobodyWakes(states, events) && HasMutex(states[0], 0)
    ensures n <= |events| && HasMutex(states[n], 0)
    ensures SlowUnlocks(states, events, |events|, 0) == slow
    ensures SlowUnlocks(states, events, n, 0) == 33 * ADJUST_PERIOD && states[n].mx[0].ticks == UINT - 256
  {
    states, events, n := StarvedThenMore(33 * ADJUST_PERIOD, slow);
    HistoryCounts(states, events, n, 0);
    HistoryCounts(states, events, |events|, 0);
    RunShape(states, events, 0, n);
  }

  lemma {:induction false} SlowUnlocksGrow(states: seq<State>, events: seq<Event>, i: nat, j: nat, m: Mid)
    requires IsRun(states, events) && i <= j <= |events|
    ensures SlowUnlocks(states, events, i, m) <= SlowUnlocks(states, events, j, m)
  {
    if i < j { SlowUnlocksGrow(states, events, i, j - 1, m); }
  }

  /** At every point of the run the budget of mutex `m` is in the envelope. */
  ghost predicate StaysInEnvelope(states: seq<State>, events: seq<Event>, m: Mid)
    requires IsRun(states, events)
  {
    forall n :: 0 <= n <= |events| && HasMutex(states[n], m) ==>
      InEnvelope(states[n].mx[m].ticks, SlowUnlocks(states, events, n, m))
  }

  ghost predicate RunWith(states: seq<State>, events: seq<Event>, m: Mid, slow: nat) {
    FreshRun(states, events) && HasMutex(states[0], m) && SlowUnlocks(states, events, |events|, m) == slow
  }

  /** Exactly how far the envelope reaches: every run with `slow` slow unlocks stays in it if and only if
      there are fewer than 33 * 2048 of them. */
  lemma EnvelopeHoldsIff(slow: nat)
    ensures (forall states: seq<State>, events: seq<Event>, m: Mid :: RunWith(states, events, m, slow) ==>
               StaysInEnvelope(states, events, m))
            <==> slow < 33 * ADJUST_PERIOD
  {
    if slow < 33 * ADJUST_PERIOD {
      forall states: seq<State>, events: seq<Event>, m: Mid | RunWith(states, events, m, slow)
        ensures StaysInEnvelope(states, events, m)
      {
        forall n | 0 <= n <= |events| && HasMutex(states[n], m)
          ensures InEnvelope(states[n].mx[m].ticks, SlowUnlocks(states, events, n, m))
        {
          SlowUnlocksGrow(states, events, n, |events|, m);
          SpinBudgetEnvelope(states, events, n, m);
        }
      }
    } else {
      var states, events, n := SpinBudgetWraps(slow);
      assert RunWith(states, events, 0, slow) && !StaysInEnvelope(states, events, 0);
    }
  }
}

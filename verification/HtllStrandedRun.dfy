/**
 A run that strands a sleeper, in any system with three threads: the one wakeup goes to a thread that
 sleeps inside a segment, which takes the lock with the 8-bit exchange, does not mark the word again, and
 unlocks on the fast path.  With it, exactly which clients can strand a sleeper.
 */
module HtllStrandedRun {
  import opened LockWord
  import opened Options
  import opened HtllModel
  import opened HtllRuns
  import opened HtllCover
  import opened HtllStranding
  import opened HtllScenes

  function X(w: Word, owner: Option<Tid>, slow: nat): Mutex {
    FreshMutex().(w := w, owner := owner, cntUnlock := slow, slow := slow)
  }

  /** Thread 2, inside a segment, finds the mutex taken. */
  lemma ThirdSpins(ms: nat, cs: nat, ts: nat, m: Mid) returns (states: seq<State>, events: seq<Event>)
    requires m < ms && ts >= 3
    ensures Plays(states, events, Init(ms, cs, ts), m, X(MARKED, Some(0), 0), Idle(Ok), Asleep(m, m, InLock), Mark(m, true))
  {
    states, events := SecondSleeps(ms, cs, ts, m);
    var x, p, z := X(MARKED, Some(0), 0), Idle(Ok), Asleep(m, m, InLock);
    states, events := Then(states, events, 2, SegmentLock(m), m, x, p, z, Spin(m, true, 1));
    states, events := Then(states, events, 2, Lock(m), m, x, p, z, Spin(m, true, 0));
    states, events := Then(states, events, 2, Lock(m), m, x, p, z, Mark(m, true));
  }

  /** It falls asleep as well. */
  lemma ThirdSleeps(ms: nat, cs: nat, ts: nat, m: Mid) returns (states: seq<State>, events: seq<Event>)
    requires m < ms && ts >= 3
    ensures Plays(states, events, Init(ms, cs, ts), m, X(MARKED, Some(0), 0), Idle(Ok), Asleep(m, m, InLock), Napping(m))
  {
    states, events := ThirdSpins(ms, cs, ts, m);
    var x, p, z := X(MARKED, Some(0), 0), Idle(Ok), Asleep(m, m, InLock);
    states, events := Then(states, events, 2, Lock(m), m, x, p, z, NapCall(m));
    states, events := Then(states, events, 2, Lock(m), m, x, p, z, Napping(m));
  }

  function U(m: Mid, at: UStage): Pc { Unlocking(at, m, ToCaller) }

  /** Thread 0 begins to unlock, on the slow path. */
  lemma FirstUnlocks(ms: nat, cs: nat, ts: nat, m: Mid) returns (states: seq<State>, events: seq<Event>)
    requires m < ms && ts >= 3
    ensures Plays(states, events, Init(ms, cs, ts), m, X(MARKED, Some(0), 1), U(m, Test), Asleep(m, m, InLock), Napping(m))
  {
    states, events := ThirdSleeps(ms, cs, ts, m);
    var x, z, y := X(MARKED, Some(0), 0), Asleep(m, m, InLock), Napping(m);
    assert UnlockTurn(x, m, Look) == (x, U(m, Load)) && UnlockTurn(x, m, Load) == (x, U(m, Store(0)));
    assert UnlockTurn(x, m, Store(0)) == (X(MARKED, Some(0), 1), U(m, Test));
    states, events := Then(states, events, 0, Unlock(m), m, x, U(m, Look), z, y);
    states, events := ThenUnlocks(states, events, 0, Look, m, x, U(m, Look), z, y);
    states, events := ThenUnlocks(states, events, 0, Load, m, x, U(m, Load), z, y);
    states, events := ThenUnlocks(states, events, 0, Store(0), m, x, U(m, Store(0)), z, y);
  }

  /** It releases the lock byte. */
  lemma FirstReleases(ms: nat, cs: nat, ts: nat, m: Mid) returns (states: seq<State>, events: seq<Event>)
    requires m < ms && ts >= 3
    ensures Plays(states, events, Init(ms, cs, ts), m, X(MARKED_FREE, None, 1), U(m, Peek1), Asleep(m, m, InLock), Napping(m))
  {
    states, events := FirstUnlocks(ms, cs, ts, m);
    var x, z, y := X(MARKED, Some(0), 1), Asleep(m, m, InLock), Napping(m);
    assert UnlockTurn(x, m, Test) == (x, U(m, Release));
    assert UnlockTurn(x, m, Release) == (X(MARKED_FREE, None, 1), U(m, Peek1));
    states, events := ThenUnlocks(states, events, 0, Test, m, x, U(m, Test), z, y);
    states, events := ThenUnlocks(states, events, 0, Release, m, x, U(m, Release), z, y);
  }

  /** It finds nobody who has taken the mutex, and clears the mark. */
  lemma FirstClears(ms: nat, cs: nat, ts: nat, m: Mid) returns (states: seq<State>, events: seq<Event>)
    requires m < ms && ts >= 3
    ensures Plays(states, events, Init(ms, cs, ts), m, X(FREE, None, 1), U(m, Wake), Asleep(m, m, InLock), Napping(m))
  {
    states, events := FirstReleases(ms, cs, ts, m);
    var x, z, y := X(MARKED_FREE, None, 1), Asleep(m, m, InLock), Napping(m);
    assert UnlockTurn(x, m, Peek1) == (x, U(m, Peek2)) && UnlockTurn(x, m, Peek2) == (x, U(m, Clear));
    assert UnlockTurn(x, m, Clear) == (X(FREE, None, 1), U(m, Wake));
    states, events := ThenUnlocks(states, events, 0, Peek1, m, x, U(m, Peek1), z, y);
    states, events := ThenUnlocks(states, events, 0, Peek2, m, x, U(m, Peek2), z, y);
    states, events := ThenUnlocks(states, events, 0, Clear, m, x, U(m, Clear), z, y);
  }

  /** Its wakeup goes to thread 2. */
  lemma ThirdWoken(ms: nat, cs: nat, ts: nat, m: Mid) returns (states: seq<State>, events: seq<Event>)
    requires m < ms && ts >= 3
    ensures Plays(states, events, Init(ms, cs, ts), m, X(FREE, None, 1), Idle(Ok), Asleep(m, m, InLock), NapDone(m))
  {
    states, events := FirstClears(ms, cs, ts, m);
    assert SleepsOn(states[|events|], 2, m);
    states, events := Then(states, events, 0, Pick(2), m, X(FREE, None, 1), Idle(Ok), Asleep(m, m, InLock), NapDone(m));
  }

  /** Thread 2 takes the mutex. */
  lemma ThirdTakes(ms: nat, cs: nat, ts: nat, m: Mid) returns (states: seq<State>, events: seq<Event>)
    requires m < ms && ts >= 3
    ensures Plays(states, events, Init(ms, cs, ts), m, X(HELD, Some(2), 1), Idle(Ok), Asleep(m, m, InLock), Idle(Ok))
  {
    states, events := ThirdWoken(ms, cs, ts, m);
    var x, p, z := X(FREE, None, 1), Idle(Ok), Asleep(m, m, InLock);
    states, events := Then(states, events, 2, Lock(m), m, x, p, z, Spin(m, true, 1));
    states, events := Then(states, events, 2, Lock(m), m, X(HELD, Some(2), 1), p, z, p);
  }

  /** It unlocks on the fast path: the word is 1. */
  lemma ThirdUnlocks(ms: nat, cs: nat, ts: nat, m: Mid) returns (states: seq<State>, events: seq<Event>)
    requires m < ms && ts >= 3
    ensures Plays(states, events, Init(ms, cs, ts), m, X(FREE, None, 1), Idle(Ok), Asleep(m, m, InLock), Idle(Ok))
  {
    states, events := ThirdTakes(ms, cs, ts, m);
    var x, p, z := X(HELD, Some(2), 1), Idle(Ok), Asleep(m, m, InLock);
    states, events := Then(states, events, 2, Unlock(m), m, x, p, z, U(m, Look));
    assert UnlockTurn(x, m, Look) == (x, U(m, Cas)) && UnlockTurn(x, m, Cas) == (X(FREE, None, 1), Idle(Ok));
    states, events := ThenUnlocks(states, events, 2, Look, m, x, p, z, U(m, Look));
    states, events := ThenUnlocks(states, events, 2, Cas, m, x, p, z, U(m, Cas));
  }

  /** With three threads or more, one of which locks from inside a segment, another can be left asleep on
      a free mutex with everyone else outside any call. */
  lemma SegmentLockStrands(ms: nat, cs: nat, ts: nat, m: Mid) returns (states: seq<State>, events: seq<Event>)
    requires m < ms && ts >= 3
    ensures FreshRun(states, events) && states[0] == Init(ms, cs, ts) && Stranded(states[|events|], m)
    ensures ts == |states[|events|].pc| && states[|events|].pc[1] == Asleep(m, m, InLock)
  {
    states, events := ThirdUnlocks(ms, cs, ts, m);
    RunShape(states, events, 0, |events|);
    assert SleepsOn(states[|events|], 1, m);
  }

  /** A run of the system with the given sizes that strands a sleeper on `m`, by a client that may, or
      may not, lock `m` from inside a segment. */
  ghost predicate CanStrand(states: seq<State>, events: seq<Event>, ms: nat, cs: nat, ts: nat, m: Mid, inSegments: bool) {
    && FreshRun(states, events) && states[0] == Init(ms, cs, ts)
    && (inSegments || NoSegmentLocks(states, events, m))
    && Stranded(states[|events|], m)
  }

  /** A client can strand a sleeper exactly if it locks the mutex from inside segments and has at least
      three threads. */
  lemma StrandingIff(ms: nat, cs: nat, ts: nat, m: Mid, inSegments: bool)
    requires m < ms
    ensures (exists states: seq<State>, events: seq<Event> :: CanStrand(states, events, ms, cs, ts, m, inSegments))
            <==> inSegments && ts >= 3
  {
    if inSegments && ts >= 3 {
      var states, events := SegmentLockStrands(ms, cs, ts, m);
      assert CanStrand(states, events, ms, cs, ts, m, inSegments);
    } else {
      forall states: seq<State>, events: seq<Event> | CanStrand(states, events, ms, cs, ts, m, inSegments) ensures false {
        if inSegments {
          TwoThreadsStrandNobody(states, events, |events|, m);
        } else {
          UntimedRunsStrandNobody(states, events, |events|, m);
        }
      }
    }
  }
}

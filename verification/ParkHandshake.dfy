/**
 The reusable park handshake: one sleeper and, in each round, one waker meet at a word that the client
 resets between rounds.  A waker stores 1 first and calls FUTEX_WAKE later, so its wake may arrive in a
 later round (litl/src/waiting_policy.h, lines 97-202).
 */
module ParkHandshake {

  const LOCKED := 0
  const UNLOCKED := 1
  const SPINNING_THRESHOLD := 4000

  datatype Sleeper =
    | Away               // not in waiting_policy_sleep
    | Spinning(i: nat)   // 105-108
    | Check              // 110
    | FutexCall          // 121, 169
    | Asleep
    | Last               // 149, 191

  datatype Waker =
    | NotYet
    | Storing            // 158, 196
    | Stored

  /** `late` holds the rounds whose waker has stored and not finished its FUTEX_WAKE (159, 197);
      `returned` says that the sleeper has returned in this round. */
  datatype State = State(word: int, round: nat, sleeper: Sleeper, waker: Waker, late: set<nat>, returned: bool)

  datatype Step =
    | Sleep(spin: bool)     // the client calls waiting_policy_sleep: spin-then-park, or park
    | SleeperMoves
    | Interrupted           // FUTEX_WAIT returns EINTR
    | Wake                  // the client calls waiting_policy_wake, which tests the word (155)
    | Store
    | FutexWake(round: nat)
    | Reset                 // the client prepares the next round

  function Init(): State { State(LOCKED, 0, Away, NotYet, {}, false) }

  predicate Enabled(s: State, step: Step) {
    match step
    case Sleep(_) => s.sleeper.Away? && !s.returned
    case SleeperMoves => !s.sleeper.Away? && !s.sleeper.Asleep?
    case Interrupted => s.sleeper.Asleep?
    case Wake => s.waker.NotYet?
    case Store => s.waker.Storing?
    case FutexWake(r) => r in s.late
    case Reset => s.returned
  }

  function Return(s: State): State { s.(sleeper := Away, returned := true) }

  function SleeperStep(s: State): State
    requires Enabled(s, SleeperMoves)
  {
    match s.sleeper
    case Spinning(i) =>
      if i < SPINNING_THRESHOLD && s.word != UNLOCKED then s.(sleeper := Spinning(i + 1)) else s.(sleeper := Check)
    case Check => if s.word == UNLOCKED then Return(s) else s.(sleeper := FutexCall)
    case FutexCall => s.(sleeper := if s.word == LOCKED then Asleep else Last)
    case Last => if s.word != UNLOCKED then s else Return(s)
  }

  function Next(s: State, step: Step): State
    requires Enabled(s, step)
  {
    match step
    case Sleep(spin) => s.(sleeper := if spin then Spinning(0) else FutexCall)
    case SleeperMoves => SleeperStep(s)
    case Interrupted => s.(sleeper := FutexCall)
    case Wake => s.(waker := Storing)
    case Store => s.(word := UNLOCKED, waker := Stored, late := s.late + {s.round})
    case FutexWake(r) => s.(late := s.late - {r}, sleeper := if s.sleeper.Asleep? then Last else s.sleeper)
    case Reset => s.(word := LOCKED, round := s.round + 1, waker := NotYet, returned := false)
  }

  // ----- the invariant

  predicate Inv(s: State) {
    && (s.word == UNLOCKED <==> s.waker.Stored?)
    && (s.word == LOCKED || s.word == UNLOCKED)
    && (s.returned ==> s.waker.Stored? && s.sleeper.Away?)
    && (s.sleeper.Asleep? && s.word == UNLOCKED ==> s.round in s.late)
    && forall r :: r in s.late ==> r < s.round || (r == s.round && s.waker.Stored?)
  }

  lemma StepKeepsInv(s: State, step: Step)
    requires Inv(s) && Enabled(s, step)
    ensures Inv(Next(s, step))
  {
  }

  ghost predicate IsRun(states: seq<State>, steps: seq<Step>) {
    && |states| == |steps| + 1
    && states[0] == Init()
    && forall i :: 0 <= i < |steps| ==> StepsAt(states, steps, i)
  }

  ghost predicate StepsAt(states: seq<State>, steps: seq<Step>, i: nat)
    requires |states| == |steps| + 1 && i < |steps|
  {
    Enabled(states[i], steps[i]) && states[i + 1] == Next(states[i], steps[i])
  }

  /** A run goes on with any enabled step. */
  lemma Extend(states: seq<State>, steps: seq<Step>, step: Step)
    requires IsRun(states, steps) && Enabled(states[|steps|], step)
    ensures IsRun(states + [Next(states[|steps|], step)], steps + [step])
  {
    var states', steps' := states + [Next(states[|steps|], step)], steps + [step];
    forall i | 0 <= i < |steps'| ensures StepsAt(states', steps', i) {
      if i < |steps| { assert StepsAt(states, steps, i); }
    }
  }

  lemma {:induction false} RunInv(states: seq<State>, steps: seq<Step>, n: nat)
    requires IsRun(states, steps) && n <= |steps|
    ensures Inv(states[n])
  {
    if n > 0 {
      RunInv(states, steps, n - 1);
      assert StepsAt(states, steps, n - 1);
      StepKeepsInv(states[n - 1], steps[n - 1]);
    }
  }

  // ----- what a client can rely on

  /** Step `i` is the store of the waker of round `r`. */
  ghost predicate StoresIn(states: seq<State>, steps: seq<Step>, i: nat, r: nat)
    requires IsRun(states, steps) && i < |steps|
  {
    steps[i] == Store && states[i].round == r
  }

  /** Step `i` is the return from the sleep of round `r`. */
  ghost predicate ReturnsIn(states: seq<State>, steps: seq<Step>, i: nat, r: nat)
    requires IsRun(states, steps) && i < |steps|
  {
    !states[i].returned && states[i + 1].returned && states[i].round == r
  }

  lemma {:induction false} StoredInRound(states: seq<State>, steps: seq<Step>, n: nat) returns (i: nat)
    requires IsRun(states, steps) && n <= |steps| && states[n].waker.Stored?
    ensures i < n && StoresIn(states, steps, i, states[n].round)
  {
    if n == 0 {
      assert false;
    } else {
      assert StepsAt(states, steps, n - 1);
      if states[n - 1].waker.Stored? { i := StoredInRound(states, steps, n - 1); } else { i := n - 1; }
    }
  }

  /** A sleep returns only after the waker of its own round has stored 1, however many wakes of earlier
      rounds arrive meanwhile. */
  lemma ReturnsOnlyAfterOwnStore(states: seq<State>, steps: seq<Step>, n: nat, r: nat)
    requires IsRun(states, steps) && n < |steps| && ReturnsIn(states, steps, n, r)
    ensures exists i :: 0 <= i < n && StoresIn(states, steps, i, r)
  {
    RunInv(states, steps, n);
    RunInv(states, steps, n + 1);
    assert StepsAt(states, steps, n);
    var i := StoredInRound(states, steps, n);
  }

  /** A late wake lets nobody through: it can at most take the sleeper from its futex to the last loop,
      which it leaves only once its own round's word is 1. */
  lemma LateWakeIsHarmless(s: State, r: nat)
    requires Inv(s) && Enabled(s, FutexWake(r)) && r != s.round && s.word == LOCKED
    ensures var s' := Next(s, FutexWake(r));
            && s'.returned == s.returned
            && (s'.sleeper == s.sleeper || (s.sleeper.Asleep? && s'.sleeper.Last?))
            && (s'.sleeper.Last? ==> Next(s', SleeperMoves) == s')
  {
  }

  /** A sleeper asleep on a word that is 1 has the waker of its own round still about to call
      FUTEX_WAKE. */
  lemma NobodyOversleeps(states: seq<State>, steps: seq<Step>, n: nat)
    requires IsRun(states, steps) && n <= |steps| && states[n].sleeper.Asleep? && states[n].word == UNLOCKED
    ensures states[n].round in states[n].late && states[n].waker.Stored?
  {
    RunInv(states, steps, n);
  }

  // ----- and once the word is 1, the sleep ends

  function Distance(p: Sleeper): nat {
    match p
    case Away => 0
    case Spinning(i) => 2
    case Check => 1
    case FutexCall => 2
    case Asleep => 2
    case Last => 1
  }

  /** The steps that the sleeper and the pending wakers make by themselves. */
  predicate Internal(step: Step) { step.SleeperMoves? || step.FutexWake? }

  lemma InternalStepDescends(s: State, step: Step)
    requires Inv(s) && s.word == UNLOCKED && Enabled(s, step) && Internal(step)
    ensures var s' := Next(s, step);
            && Inv(s') && s'.word == UNLOCKED && s'.round == s.round
            && Distance(s'.sleeper) + |s'.late| < Distance(s.sleeper) + |s.late|
  {
  }

  /** The state after some steps, each of them internal and enabled. */
  ghost predicate LeadsTo(s: State, steps: seq<Step>, s': State)
    decreases |steps|
  {
    if steps == [] then s == s'
    else Enabled(s, steps[0]) && Internal(steps[0]) && LeadsTo(Next(s, steps[0]), steps[1..], s')
  }

  /** Once the word is 1, the sleeper and the pending wakers need no more help: left to themselves they
      stop within `2 + |late|` steps, and they do not stop before the sleeper is back and no wake is
      pending. */
  lemma {:induction false} StoredSleepEnds(s: State, steps: seq<Step>, s': State)
    requires Inv(s) && s.word == UNLOCKED && LeadsTo(s, steps, s')
    ensures |steps| <= Distance(s.sleeper) + |s.late| <= 2 + |s.late|
    ensures (s'.sleeper.Away? && s'.late == {}) || exists step :: Internal(step) && Enabled(s', step)
    decreases |steps|
  {
    if steps == [] {
      if r :| r in s.late {
        assert Internal(FutexWake(r)) && Enabled(s, FutexWake(r));
      } else if !s.sleeper.Away? {
        assert Internal(SleeperMoves) && Enabled(s, SleeperMoves);
      }
    } else {
      InternalStepDescends(s, steps[0]);
      StoredSleepEnds(Next(s, steps[0]), steps[1..], s');
    }
  }

  // ----- and as long as the word is 0, the sleeper spins its share and parks

  /** How far the sleeper has come in the steps `a` to `n - 1`: each step of its own brings it one on, each
      signal that takes it out of the kernel one back. */
  function Headway(steps: seq<Step>, a: nat, n: nat): int
    requires a <= n <= |steps|
  {
    if n == a then 0
    else Headway(steps, a, n - 1) + if steps[n - 1].SleeperMoves? then 1 else if steps[n - 1].Interrupted? then -1 else 0
  }

  /** Where a sleep is when it has come `k` steps and the word is 0. */
  function Parking(spin: bool, k: int): Sleeper {
    if !spin then if k <= 0 then FutexCall else Asleep
    else if k <= 4000 then Spinning(if k < 0 then 0 else k)
    else if k == 4001 then Check
    else if k == 4002 then FutexCall
    else Asleep
  }

  /** After step `a` and before state `n` the word is 0, and no wake reaches the sleeper in the kernel. */
  ghost predicate Unwoken(states: seq<State>, steps: seq<Step>, a: nat, n: nat)
    requires IsRun(states, steps) && n <= |steps|
  {
    forall k :: a < k < n ==>
      states[k].word == LOCKED && steps[k] != Store && (states[k].sleeper.Asleep? ==> !steps[k].FutexWake?)
  }

  /** A sleep that nobody wakes polls exactly 4001 times, checks, and parks with its 4003rd step; one that
      does not spin parks with its first.  A signal costs it one more call of the futex, and late wakes do
      not keep it from parking. */
  lemma {:induction false} ParksUnlessWoken(states: seq<State>, steps: seq<Step>, a: nat, n: nat, spin: bool)
    requires IsRun(states, steps) && a < n <= |steps| && steps[a] == Sleep(spin) && states[a].word == LOCKED
    requires Unwoken(states, steps, a, n)
    ensures states[n].word == LOCKED && !states[n].returned
    ensures 0 <= Headway(steps, a, n) <= (if spin then 4003 else 1)
    ensures states[n].sleeper == Parking(spin, Headway(steps, a, n))
  {
    assert StepsAt(states, steps, n - 1);
    if n == a + 1 {
      assert Headway(steps, a, a) == 0;
    } else {
      ParksUnlessWoken(states, steps, a, n - 1, spin);
    }
  }

  // ----- in place

  /** The state after the proposed steps, one after the other, without those that are not possible. */
  function Follow(s: State, proposed: seq<Step>): State {
    if proposed == [] then s
    else
      var n := |proposed| - 1;
      var s' := Follow(s, proposed[..n]);
      if Enabled(s', proposed[n]) then Next(s', proposed[n]) else s'
  }

  /** The word and the two sides that meet at it, updated where they stand. */
  class Rendezvous {
    var word: int
    var round: nat
    var sleeper: Sleeper
    var waker: Waker
    var late: set<nat>
    var returned: bool

    function View(): State
      reads this
    {
      State(word, round, sleeper, waker, late, returned)
    }

    constructor ()
      ensures View() == Init() && Inv(View())
    {
      word, round, sleeper, waker, late, returned := LOCKED, 0, Away, NotYet, {}, false;
    }

    /** The client calls `waiting_policy_sleep`, in its spin-then-park or its park variant. */
    method BeginSleep(spin: bool)
      requires Inv(View()) && Enabled(View(), Sleep(spin))
      modifies this
      ensures View() == Next(old(View()), Sleep(spin)) && Inv(View())
    {
      sleeper := if spin then Spinning(0) else FutexCall;
    }

    /** FUTEX_WAIT comes back with EINTR, and the loop calls it again. */
    method Interrupt()
      requires Inv(View()) && Enabled(View(), Interrupted)
      modifies this
      ensures View() == Next(old(View()), Interrupted) && Inv(View())
    {
      sleeper := FutexCall;
    }

    /** The client calls `waiting_policy_wake`, which is then about to store. */
    method BeginWake()
      requires Inv(View()) && Enabled(View(), Wake)
      modifies this
      ensures View() == Next(old(View()), Wake) && Inv(View())
    {
      waker := Storing;
    }

    /** One access of `waiting_policy_sleep`. */
    method SleepAccess()
      requires Inv(View()) && Enabled(View(), SleeperMoves)
      modifies this
      ensures View() == Next(old(View()), SleeperMoves) && Inv(View())
    {
      match sleeper
      case Spinning(i) =>
        if i < SPINNING_THRESHOLD && word != UNLOCKED {
          sleeper := Spinning(i + 1);
        } else {
          sleeper := Check;
        }
      case Check =>
        if word == UNLOCKED {
          sleeper, returned := Away, true;
        } else {
          sleeper := FutexCall;
        }
      case FutexCall =>
        sleeper := if word == LOCKED then Asleep else Last;
      case Last =>
        if word == UNLOCKED {
          sleeper, returned := Away, true;
        }
    }

    /** `*var = 1` in `waiting_policy_wake`; its FUTEX_WAKE is still to come. */
    method StoreWord()
      requires Inv(View()) && Enabled(View(), Store)
      modifies this
      ensures View() == Next(old(View()), Store) && Inv(View())
    {
      word := UNLOCKED;
      waker := Stored;
      late := late + {round};
    }

    /** The FUTEX_WAKE of the waker of round `r`. */
    method WakeOne(r: nat)
      requires Inv(View()) && Enabled(View(), FutexWake(r))
      modifies this
      ensures View() == Next(old(View()), FutexWake(r)) && Inv(View())
    {
      late := late - {r};
      if sleeper.Asleep? {
        sleeper := Last;
      }
    }

    /** The client prepares the next round. */
    method PrepareRound()
      requires Inv(View()) && Enabled(View(), Reset)
      modifies this
      ensures View() == Next(old(View()), Reset) && Inv(View())
    {
      word := LOCKED;
      round := round + 1;
      waker := NotYet;
      returned := false;
    }

    /** One step of either side, of the kernel or of the client. */
    method Do(step: Step)
      requires Inv(View()) && Enabled(View(), step)
      modifies this
      ensures View() == Next(old(View()), step) && Inv(View())
    {
      match step
      case Sleep(spin) => BeginSleep(spin);
      case SleeperMoves => SleepAccess();
      case Interrupted => Interrupt();
      case Wake => BeginWake();
      case Store => StoreWord();
      case FutexWake(r) => WakeOne(r);
      case Reset => PrepareRound();
    }

    /** Do what is proposed, skipping what is not possible: the object passes through the states of a run,
        so what is proved about runs holds of it. */
    method Run(proposed: seq<Step>) returns (ghost states: seq<State>, ghost steps: seq<Step>)
      requires View() == Init()
      modifies this
      ensures IsRun(states, steps) && View() == states[|steps|] && Inv(View())
      ensures View() == Follow(Init(), proposed)
    {
      states, steps := [View()], [];
      for i := 0 to |proposed|
        invariant IsRun(states, steps) && View() == states[|steps|] && Inv(View())
        invariant View() == Follow(Init(), proposed[..i])
      {
        assert proposed[..i + 1][..i] == proposed[..i];
        if Enabled(View(), proposed[i]) {
          Extend(states, steps, proposed[i]);
          Do(proposed[i]);
          states, steps := states + [View()], steps + [proposed[i]];
        }
      }
      assert proposed[..|proposed|] == proposed;
    }
  }
}

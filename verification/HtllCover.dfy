/**
 What covers a thread that sleeps on a mutex, step by step.  `J` is kept by every step.  `K` is kept by
 every step but one: a wake that is all that covers two sleepers and takes one that sleeps inside a segment
 (StepBreaksKIff).
 */
module HtllCover {
  import opened LockWord
  import opened Options
  import opened HtllModel
  import opened HtllSafety

  /** Between the release of the lock byte (line 120) and the clearing of `contended` (line 133). */
  predicate Releasing(s: State, t: Tid, m: Mid) {
    t < |s.pc| && s.pc[t].Unlocking? && s.pc[t].m == m && (s.pc[t].at.Peek1? || s.pc[t].at.Peek2? || s.pc[t].at.Clear?)
  }

  /** Between the clearing of `contended` and the end of `FUTEX_WAKE` (lines 134-135). */
  predicate Waking(s: State, t: Tid, m: Mid) {
    t < |s.pc| && s.pc[t].Unlocking? && s.pc[t].m == m && s.pc[t].at.Wake?
  }

  /** About to exchange the word with 257 in a sleep loop. */
  predicate Remarking(s: State, t: Tid, m: Mid) { t < |s.pc| && s.pc[t].Remark? && s.pc[t].m == m }

  ghost predicate J(s: State, m: Mid)
    requires HasMutex(s, m)
  {
    s.mx[m].w.locked == UNLOCKED && s.mx[m].w.contended != UNCONTENDED ==> exists t: Tid :: Releasing(s, t, m)
  }

  ghost predicate SomeoneSleeps(s: State, m: Mid) { exists t: Tid :: SleepsOn(s, t, m) }

  ghost predicate K(s: State, m: Mid)
    requires HasMutex(s, m)
  {
    SomeoneSleeps(s, m) ==>
      || s.mx[m].w.contended != UNCONTENDED
      || (exists t: Tid :: Waking(s, t, m))
      || (exists t: Tid :: Remarking(s, t, m))
  }

  // ----- J

  /** Who is between release and clear when the antecedent of J holds after a step. */
  lemma StepKeepsJ(s: State, t: Tid, ch: Choice, m: Mid)
    requires Inv(s) && Enabled(s, t, ch) && HasMutex(s, m) && J(s, m)
    ensures HasMutex(Next(s, t, ch), m) && J(Next(s, t, ch), m)
  {
    var s' := Next(s, t, ch);
    StepEvolves(s, t, ch);
    assert ThreadOk(s, t) && WordOk(s.mx[m]);
    if s'.mx[m].w.locked == UNLOCKED && s'.mx[m].w.contended != UNCONTENDED && !Releasing(s', t, m) {
      ReleasedBefore(s, t, ch, m);
      var w: Tid :| Releasing(s, w, m);
      assert Bystander(s.pc[w], s'.pc[w], s) && Releasing(s', w, m);
    }
  }

  /** If an access of an unlock leaves the word at 256 and the unlock is not between release and clear
      afterwards, the word was 256 before, and the unlock was not between the two then either. */
  lemma UnlockReleasedBefore(x: Mutex, at: UStage, ch: Choice)
    requires WordOk(x)
    ensures var x', n := UnlockEffect(x, at, ch), NextStage(x, at);
            x'.w.locked == UNLOCKED && x'.w.contended != UNCONTENDED
            && !(n.Some? && (n.value.Peek1? || n.value.Peek2? || n.value.Clear?))
            ==> x.w == x'.w && !(at.Peek1? || at.Peek2? || at.Clear?)
  {
  }

  /** A lock neither frees the lock byte nor clears the mark. */
  lemma LockStepMarks(s: State, t: Tid, ch: Choice, m: Mid)
    requires t < |s.pc| && InRange(s, s.pc[t]) && Locking(s.pc[t]) && HasMutex(s, m)
    ensures var w, w' := s.mx[m].w, LockStep(s, t, ch).mx[m].w;
            && (w'.locked == UNLOCKED ==> w' == w)
            && (w.contended != UNCONTENDED ==> w'.contended != UNCONTENDED)
  {
  }

  /** Word 256 with nobody of thread `t` between release and clear. */
  predicate FreeAndMarked(s: State, t: Tid, m: Mid) {
    && HasMutex(s, m) && s.mx[m].w.locked == UNLOCKED && s.mx[m].w.contended != UNCONTENDED
    && !Releasing(s, t, m)
  }

  lemma UnlockerReleasedBefore(s: State, t: Tid, ch: Choice, m: Mid)
    requires t < |s.pc| && InRange(s, s.pc[t]) && s.pc[t].Unlocking? && HasMutex(s, m) && WordOk(s.mx[m])
    requires FreeAndMarked(UnlockStep(s, t, ch), t, m)
    ensures FreeAndMarked(s, t, m)
  {
    if s.pc[t].m == m { UnlockReleasedBefore(s.mx[m], s.pc[t].at, ch); }
  }

  lemma LockerReleasedBefore(s: State, t: Tid, ch: Choice, m: Mid)
    requires t < |s.pc| && InRange(s, s.pc[t]) && Locking(s.pc[t]) && HasMutex(s, m)
    requires FreeAndMarked(LockStep(s, t, ch), t, m)
    ensures FreeAndMarked(s, t, m)
  {
    LockStepMarks(s, t, ch, m);
  }

  /** The same for any step and any mutex. */
  lemma ReleasedBefore(s: State, t: Tid, ch: Choice, m: Mid)
    requires Enabled(s, t, ch) && HasMutex(s, m) && WordOk(s.mx[m])
    requires FreeAndMarked(Next(s, t, ch), t, m)
    ensures FreeAndMarked(s, t, m)
  {
    if s.pc[t].Unlocking? {
      assert Next(s, t, ch) == UnlockStep(s, t, ch);
      UnlockerReleasedBefore(s, t, ch, m);
    } else if Locking(s.pc[t]) {
      assert Next(s, t, ch) == LockStep(s, t, ch);
      LockerReleasedBefore(s, t, ch, m);
    } else {
      OthersLeaveMutexes(s, t, ch);
    }
  }

  // ----- K

  /** A broadcast wakes one waiter, which is about to re-mark the mutex, and leaves every other one
      asleep on that mutex; nobody is left on the condition variable. */
  lemma BroadcastStrandsNobody(s: State, t: Tid, ch: Choice, c: Cid, m: Mid)
    requires Inv(s) && Enabled(s, t, ch) && s.pc[t] == BroadcastRequeue(c, m) && s.cv[c].q != []
    ensures var s', q := Next(s, t, ch), s.cv[c].q;
            && s'.cv[c].q == []
            && Remarking(s', q[ch.pick], m)
            && (forall t': Tid :: t' in q && t' != q[ch.pick] ==> SleepsOn(s', t', m))
            && (forall t': Tid :: t' < |s.pc| && t' !in q && t' != t ==> s'.pc[t'] == s.pc[t'])
  {
    assert ThreadOk(s, t) && CondOk(s, c);
    var q := s.cv[c].q;
    forall t': Tid | t' in q ensures t' < |s.pc| && t' != t && s.pc[t'].CondAsleep? && s.pc[t'].m == m {
      var i :| 0 <= i < |q| && q[i] == t';
      assert ThreadOk(s, t');
    }
  }

  /** `FUTEX_WAIT` sleeps only on a word that is 257. */
  lemma LockSleepIsMarked(s: State, t: Tid, ch: Choice, m: Mid)
    requires t < |s.pc| && InRange(s, s.pc[t]) && Locking(s.pc[t]) && HasMutex(s, m)
    requires SleepsOn(LockStep(s, t, ch), t, m) && !SleepsOn(s, t, m)
    ensures LockStep(s, t, ch).mx == s.mx && s.mx[m].w.U() == LOCKED_AND_CONTENDED
  {
  }

  lemma MarkIn257(w: Word)
    requires FourValues(w) && w.U() == LOCKED_AND_CONTENDED
    ensures w.contended != UNCONTENDED
  {
  }

  lemma NonLockersStayAwake(s: State, t: Tid, ch: Choice, m: Mid)
    requires Enabled(s, t, ch) && !Locking(s.pc[t])
    ensures !SleepsOn(Next(s, t, ch), t, m)
  {
  }

  lemma OnlyBroadcastMoves(s: State, t: Tid, ch: Choice, z: Tid)
    requires Enabled(s, t, ch) && Signalling(s.pc[t]) && z < |s.pc| && z != t && s.pc[z].CondAsleep?
    requires z < |SignalStep(s, t, ch).pc| && SignalStep(s, t, ch).pc[z].Asleep?
    ensures s.pc[t].BroadcastRequeue? && s.cv[s.pc[t].c].q != [] && SignalStep(s, t, ch).pc[z].addr == s.pc[t].m
  {
  }

  lemma OthersMoveNoWaiter(s: State, t: Tid, ch: Choice, z: Tid)
    requires Enabled(s, t, ch) && !Signalling(s.pc[t]) && z < |s.pc| && z != t && s.pc[z].CondAsleep?
    ensures z < |Next(s, t, ch).pc| && !Next(s, t, ch).pc[z].Asleep?
  {
  }

  /** Whoever falls asleep on `m` finds it marked, or is moved there while another is let go. */
  lemma NewSleeperIsCovered(s: State, t: Tid, ch: Choice, m: Mid, z: Tid)
    requires Inv(s) && Enabled(s, t, ch) && HasMutex(s, m) && Evolves(s, Next(s, t, ch), t)
    requires SleepsOn(Next(s, t, ch), z, m) && !SleepsOn(s, z, m)
    ensures Next(s, t, ch).mx[m].w.contended != UNCONTENDED || exists w: Tid :: Remarking(Next(s, t, ch), w, m)
  {
    if z == t {
      if Locking(s.pc[t]) {
        assert Next(s, t, ch) == LockStep(s, t, ch);
        LockSleepIsMarked(s, t, ch, m);
        assert MutexOk(s, m);
        MarkIn257(s.mx[m].w);
      } else {
        NonLockersStayAwake(s, t, ch, m);
      }
    } else {
      assert Bystander(s.pc[z], Next(s, t, ch).pc[z], s);
      if Signalling(s.pc[t]) { OnlyBroadcastMoves(s, t, ch, z); } else { OthersMoveNoWaiter(s, t, ch, z); }
      BroadcastStrandsNobody(s, t, ch, s.pc[t].c, m);
    }
  }

  /** A thread that clears the mark goes on to wake. */
  lemma UnmarkingIsCovered(s: State, t: Tid, ch: Choice, m: Mid)
    requires Inv(s) && Enabled(s, t, ch) && HasMutex(s, m) && HasMutex(Next(s, t, ch), m)
    requires s.mx[m].w.contended != UNCONTENDED && Next(s, t, ch).mx[m].w.contended == UNCONTENDED
    ensures Waking(Next(s, t, ch), t, m)
  {
    assert WordOk(s.mx[m]);
    if s.pc[t].Unlocking? {
      UnlockUnmarks(s, t, ch, m);
    } else if Locking(s.pc[t]) {
      LockStepMarks(s, t, ch, m);
    } else {
      OthersLeaveMutexes(s, t, ch);
    }
  }

  lemma UnlockUnmarks(s: State, t: Tid, ch: Choice, m: Mid)
    requires t < |s.pc| && InRange(s, s.pc[t]) && s.pc[t].Unlocking? && HasMutex(s, m) && WordOk(s.mx[m])
    requires s.mx[m].w.contended != UNCONTENDED && UnlockStep(s, t, ch).mx[m].w.contended == UNCONTENDED
    ensures Waking(UnlockStep(s, t, ch), t, m)
  {
  }

  /** The wake goes to a thread that sleeps inside a segment, the `flag == 0` branch of line 81, while
      another thread stays asleep on `m`. */
  predicate TakesNapper(s: State, t: Tid, ch: Choice, m: Mid, z: Tid) {
    && Waking(s, t, m)
    && ch.pick < |s.pc| && s.pc[ch.pick] == Napping(m)
    && z != ch.pick && SleepsOn(s, z, m)
  }

  ghost predicate WakesNapper(s: State, t: Tid, ch: Choice, m: Mid) {
    exists z: Tid :: TakesNapper(s, t, ch, m, z)
  }

  /** Nothing but the wake that `t` is about to make covers the sleepers of `m`. */
  ghost predicate OnlyCover(s: State, t: Tid, m: Mid)
    requires HasMutex(s, m)
  {
    && s.mx[m].w.contended == UNCONTENDED
    && forall w: Tid :: w != t ==> !Waking(s, w, m) && !Remarking(s, w, m)
  }

  /** A wake on `m` with a sleeper makes one thread re-mark the word, unless it takes one that sleeps
      inside a segment. */
  lemma WakeIsCovered(s: State, t: Tid, ch: Choice, m: Mid, z: Tid)
    requires Inv(s) && Enabled(s, t, ch) && Waking(s, t, m) && SleepsOn(s, z, m)
    requires s.pc[ch.pick] != Napping(m)
    ensures Remarking(Next(s, t, ch), ch.pick, m)
  {
    assert SleepsOn(s, ch.pick, m);
    assert ThreadOk(s, ch.pick);
  }

  lemma RemarkMarks(s: State, t: Tid, ch: Choice, m: Mid)
    requires Inv(s) && Enabled(s, t, ch) && Remarking(s, t, m)
    ensures HasMutex(Next(s, t, ch), m) && Next(s, t, ch).mx[m].w.contended != UNCONTENDED
  {
  }

  lemma OthersStillCover(s: State, s': State, t: Tid, m: Mid, w: Tid)
    requires Evolves(s, s', t) && w != t && (Waking(s, w, m) || Remarking(s, w, m))
    ensures Waking(s', w, m) || Remarking(s', w, m)
  {
    assert Bystander(s.pc[w], s'.pc[w], s);
  }

  /** A wake that leaves a sleeper and does not break K takes none that sleeps inside a segment. */
  lemma TakesNoNapper(s: State, t: Tid, ch: Choice, m: Mid, z: Tid)
    requires Enabled(s, t, ch) && Waking(s, t, m) && !WakesNapper(s, t, ch, m)
    requires SleepsOn(s, z, m) && SleepsOn(Next(s, t, ch), z, m)
    ensures ch.pick < |s.pc| && s.pc[ch.pick] != Napping(m)
  {
    assert !TakesNapper(s, t, ch, m, z);
    assert SleepsOn(s, ch.pick, m);
    if z == ch.pick { assert Next(s, t, ch) == UnlockStep(s, t, ch); }
  }

  /** The cover of a sleeper that stays asleep moves on to a mark or to another thread. */
  lemma CoverMovesOn(s: State, t: Tid, ch: Choice, m: Mid, z: Tid)
    requires Inv(s) && Enabled(s, t, ch) && HasMutex(s, m) && K(s, m)
    requires SleepsOn(s, z, m) && SleepsOn(Next(s, t, ch), z, m)
    requires s.mx[m].w.contended == UNCONTENDED && Evolves(s, Next(s, t, ch), t)
    requires !(OnlyCover(s, t, m) && WakesNapper(s, t, ch, m))
    ensures K(Next(s, t, ch), m)
  {
    var w: Tid :| (Waking(s, w, m) || Remarking(s, w, m)) && (OnlyCover(s, t, m) || w != t);
    if w != t {
      OthersStillCover(s, Next(s, t, ch), t, m, w);
    } else if Waking(s, t, m) {
      TakesNoNapper(s, t, ch, m, z);
      WakeIsCovered(s, t, ch, m, z);
    } else {
      RemarkMarks(s, t, ch, m);
    }
  }

  lemma StepKeepsK(s: State, t: Tid, ch: Choice, m: Mid)
    requires Inv(s) && Enabled(s, t, ch) && HasMutex(s, m) && K(s, m)
    requires !(OnlyCover(s, t, m) && WakesNapper(s, t, ch, m))
    ensures HasMutex(Next(s, t, ch), m) && K(Next(s, t, ch), m)
  {
    var s' := Next(s, t, ch);
    StepEvolves(s, t, ch);
    if SomeoneSleeps(s', m) && s'.mx[m].w.contended == UNCONTENDED {
      var z: Tid :| SleepsOn(s', z, m);
      if !SleepsOn(s, z, m) {
        NewSleeperIsCovered(s, t, ch, m, z);
      } else if s.mx[m].w.contended != UNCONTENDED {
        UnmarkingIsCovered(s, t, ch, m);
      } else {
        CoverMovesOn(s, t, ch, m, z);
      }
    }
  }

  /** What a wake does that takes a thread sleeping inside a segment: the word stays as it is, the
      waker leaves, the woken thread goes back to spinning, and the rest stay where they are. */
  lemma NapperWakeEffect(s: State, t: Tid, ch: Choice, m: Mid, w: Tid)
    requires Enabled(s, t, ch) && HasMutex(s, m) && Waking(s, t, m)
    requires ch.pick < |s.pc| && s.pc[ch.pick] == Napping(m)
    ensures var s' := Next(s, t, ch);
            && |s'.pc| == |s.pc| && HasMutex(s', m) && s'.mx[m].w == s.mx[m].w
            && (w < |s.pc| && w != t && w != ch.pick ==> s'.pc[w] == s.pc[w])
            && (Waking(s', w, m) || Remarking(s', w, m) ==> w != t && (Waking(s, w, m) || Remarking(s, w, m)))
  {
    assert Next(s, t, ch) == UnlockStep(s, t, ch);
  }

  /** The one step that breaks K: a wake that is the only cover of two sleepers and takes one of them
      that sleeps inside a segment, and so will not mark the word again. */
  lemma StepBreaksKIff(s: State, t: Tid, ch: Choice, m: Mid)
    requires Inv(s) && Enabled(s, t, ch) && HasMutex(s, m) && K(s, m)
    ensures HasMutex(Next(s, t, ch), m)
    ensures !K(Next(s, t, ch), m) <==> OnlyCover(s, t, m) && WakesNapper(s, t, ch, m)
  {
    StepEvolves(s, t, ch);
    if OnlyCover(s, t, m) && WakesNapper(s, t, ch, m) {
      var s' := Next(s, t, ch);
      var z: Tid :| TakesNapper(s, t, ch, m, z);
      NapperWakeEffect(s, t, ch, m, z);
      assert SleepsOn(s', z, m);
      forall w: Tid ensures !Waking(s', w, m) && !Remarking(s', w, m) { NapperWakeEffect(s, t, ch, m, w); }
    } else {
      StepKeepsK(s, t, ch, m);
    }
  }
}

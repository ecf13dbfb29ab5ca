/**
 Safety of the HTLL step system in every run, with no restriction on who locks from inside a
 segment: the stepwise lock refines an atomic lock, a condition variable stays bound to one
 mutex, and the unprotected counters are exact.
 */
module HtllSafety {
  import opened LockWord
  import opened Options
  import opened HtllModel

  // ----- the invariant

  /** The stages of an unlock at which the mutex is still held. */
  predicate Holding(at: UStage) {
    at.Look? || at.Cas? || at.Load? || at.Store? || at.Test? || at.Adjust? || at.Release?
  }

  predicate BoundTo(s: State, c: Cid, m: Mid) { HasCond(s, c) && s.cv[c].m == Some(m) }

  predicate TicketOk(s: State, c: Cid, ticket: nat) { HasCond(s, c) && ticket <= s.cv[c].incs }

  predicate AfterOk(s: State, m: Mid, next: After) {
    next.ToSleep? ==> BoundTo(s, next.c, m) && TicketOk(s, next.c, next.ticket)
  }

  predicate ThreadOk(s: State, t: Tid)
    requires t < |s.pc|
  {
    var p := s.pc[t];
    && InRange(s, p)
    && match p
       case Asleep(a, m, _) => a == m
       case Unlocking(at, m, next) =>
         && (Holding(at) ==> Owns(s, t, m))
         && (at.Store? ==> at.v == s.mx[m].cntUnlock)
         && AfterOk(s, m, next)
       case Binding(at, c, m, ticket, _) =>
         && Owns(s, t, m)
         && (at != ReadSeq ==> TicketOk(s, c, ticket))
         && (at.IsSet? || at.Bind? ==> !BoundTo(s, c, m))
         && (at.Recheck? ==> s.cv[c].m.Some?)
       case CondCall(c, m, ticket, _) => BoundTo(s, c, m) && TicketOk(s, c, ticket)
       case CondAsleep(c, m, ticket, _) => BoundTo(s, c, m) && TicketOk(s, c, ticket) && t in s.cv[c].q
       case BroadcastInc(c, m) => BoundTo(s, c, m)
       case BroadcastRequeue(c, m) => BoundTo(s, c, m)
       case _ => true
  }

  /** Is an adjustment owed, that is, has the slow-path count reached a multiple of 2048 whose
      adjustment has not run yet? */
  predicate OwedAt(x: Mutex, at: UStage) { (at.Test? && x.slow % ADJUST_PERIOD == 0) || at.Adjust? }

  predicate Owed(s: State, m: Mid)
    requires HasMutex(s, m)
  {
    var x := s.mx[m];
    && x.owner.Some?
    && x.owner.value < |s.pc|
    && var p := s.pc[x.owner.value];
       p.Unlocking? && p.m == m && OwedAt(x, p.at)
  }

  predicate WordOk(x: Mutex) { FourValues(x.w) && (x.w.locked == LOCKED <==> x.owner.Some?) }

  predicate CountersOk(x: Mutex, owed: bool) {
    && x.cntUnlock == x.slow % UINT
    && x.adjusts + (if owed then 1 else 0) == x.slow / ADJUST_PERIOD
    && TicksOk(x)
  }

  predicate MutexOk(s: State, m: Mid)
    requires HasMutex(s, m)
  {
    && WordOk(s.mx[m])
    && (s.mx[m].owner.Some? ==> s.mx[m].owner.value < |s.pc|)
    && CountersOk(s.mx[m], Owed(s, m))
  }

  predicate TicksOk(x: Mutex) {
    && 0 <= x.ticks < UINT
    && x.ticks % DECREASE_UNIT == 0
    && (x.adjusts <= 32 ==>
        SPIN_TRIES_LOCK - DECREASE_UNIT * x.adjusts <= x.ticks <= SPIN_TRIES_LOCK + INCREASE_UNIT * x.adjusts)
  }

  predicate Distinct(q: seq<Tid>) { forall i, j :: 0 <= i < j < |q| ==> q[i] != q[j] }

  predicate CondOk(s: State, c: Cid)
    requires HasCond(s, c)
  {
    var x := s.cv[c];
    && (x.m.Some? ==> HasMutex(s, x.m.value))
    && Distinct(x.q)
    && forall i :: 0 <= i < |x.q| ==> x.q[i] < |s.pc| && s.pc[x.q[i]].CondAsleep? && s.pc[x.q[i]].c == c
  }

  ghost predicate Inv(s: State) {
    && (forall t: Tid :: t < |s.pc| ==> ThreadOk(s, t))
    && (forall m: Mid :: HasMutex(s, m) ==> MutexOk(s, m))
    && (forall c: Cid :: HasCond(s, c) ==> CondOk(s, c))
  }

  // ----- what one step may change

  predicate Locking(p: Pc) {
    || p.Spin? || p.Mark? || p.NapCall? || p.Napping? || p.NapDone? || p.Remark? || p.WaitCall?
    || p.Asleep? || p.TryOnce?
  }

  predicate Signalling(p: Pc) {
    || p.SignalInc? || p.SignalWake? || p.BroadcastRead? || p.BroadcastInc? || p.BroadcastRequeue?
  }

  /** One step of the atomic lock that `htll_mutex_*` implements, seen at mutex `m`: nothing, a free
      mutex is taken by the thread that moves, or its owner gives it up. */
  predicate AtomicStep(before: Option<Tid>, after: Option<Tid>, t: Tid) {
    || after == before
    || (before == None && after == Some(t))
    || (before == Some(t) && after == None)
  }

  /** A thread that does not move is untouched, unless the kernel lets it go or requeues it. */
  predicate Bystander(p: Pc, p': Pc, s: State) {
    || p' == p
    || (p' == Woken(p) && (p.Asleep? || p.Napping? || p.CondAsleep?))
    || (p.CondAsleep? && p'.Asleep? && p'.m == p.m && p'.k == p.k && BoundTo(s, p.c, p'.addr))
  }

  ghost predicate Evolves(s: State, s': State, t: Tid) {
    && t < |s.pc| == |s'.pc|
    && |s'.mx| == |s.mx|
    && |s'.cv| == |s.cv|
    && (forall m: Mid :: HasMutex(s, m) ==>
          && AtomicStep(s.mx[m].owner, s'.mx[m].owner, t)
          && (s'.mx[m].cntUnlock != s.mx[m].cntUnlock ==> s.mx[m].owner == Some(t))
          && s'.mx[m].slow >= s.mx[m].slow)
    && (forall c: Cid :: HasCond(s, c) ==>
          && (s.cv[c].m.Some? ==> s'.cv[c].m == s.cv[c].m)
          && (s'.cv[c].m != s.cv[c].m ==> s'.cv[c].m.Some? && Owns(s, t, s'.cv[c].m.value))
          && s'.cv[c].incs >= s.cv[c].incs)
    && (forall t': Tid :: t' < |s.pc| && t' != t ==> Bystander(s.pc[t'], s'.pc[t'], s))
    && (forall t': Tid :: t' < |s.pc| && t' != t && s'.pc[t'] == s.pc[t'] && s.pc[t'].CondAsleep? && HasCond(s, s.pc[t'].c) ==>
          t' in s.cv[s.pc[t'].c].q ==> t' in s'.cv[s.pc[t'].c].q)
  }

  predicate SameCounters(x: Mutex, y: Mutex) {
    x.cntUnlock == y.cntUnlock && x.slow == y.slow && x.adjusts == y.adjusts && x.ticks == y.ticks
  }

  lemma StaysQueued(q: seq<Tid>, i: nat, t: Tid)
    requires i < |q| && t in q && t != q[i]
    ensures t in RemoveAt(q, i)
  {
    var j :| 0 <= j < |q| && q[j] == t;
    var q' := RemoveAt(q, i);
    assert q'[if j < i then j else j - 1] == t;
  }

  /** Where the mover goes is its own business. */
  lemma GotoEvolves(s: State, s': State, t: Tid, p: Pc)
    requires Evolves(s, s', t)
    ensures Evolves(s, Goto(s', t, p), t)
  {
  }

  lemma StayEvolves(s: State, t: Tid)
    requires t < |s.pc|
    ensures Evolves(s, s, t)
  {
  }

  /** A mutex that the mover takes when it is free, or changes in its word alone. */
  lemma SetMutexEvolves(s: State, t: Tid, m: Mid, x: Mutex)
    requires t < |s.pc| && HasMutex(s, m) && SameCounters(s.mx[m], x)
    requires x.owner == s.mx[m].owner || (s.mx[m].owner == None && x.owner == Some(t))
    ensures Evolves(s, SetMutex(s, m, x), t)
  {
  }

  /** The same, when the mover goes on to `p`. */
  lemma MoveWithMutexEvolves(s: State, t: Tid, m: Mid, x: Mutex, p: Pc)
    requires t < |s.pc| && HasMutex(s, m) && SameCounters(s.mx[m], x)
    requires x.owner == s.mx[m].owner || (s.mx[m].owner == None && x.owner == Some(t))
    ensures Evolves(s, Goto(SetMutex(s, m, x), t, p), t)
  {
    SetMutexEvolves(s, t, m, x);
    GotoEvolves(s, SetMutex(s, m, x), t, p);
  }

  lemma Swap8Evolves(s: State, t: Tid, m: Mid, taken: Pc, refused: Pc)
    requires t < |s.pc| && HasMutex(s, m) && WordOk(s.mx[m])
    ensures Evolves(s, Swap8(s, t, m, taken, refused), t)
  {
    var x := s.mx[m].(w := s.mx[m].w.(locked := LOCKED));
    if s.mx[m].w.locked == UNLOCKED {
      assert Swap8(s, t, m, taken, refused) == Goto(SetMutex(s, m, x.(owner := Some(t))), t, taken);
      MoveWithMutexEvolves(s, t, m, x.(owner := Some(t)), taken);
    } else {
      assert Swap8(s, t, m, taken, refused) == Goto(SetMutex(s, m, x), t, refused);
      MoveWithMutexEvolves(s, t, m, x, refused);
    }
  }

  lemma Swap32Evolves(s: State, t: Tid, m: Mid, taken: Pc, refused: Pc)
    requires t < |s.pc| && HasMutex(s, m) && WordOk(s.mx[m])
    ensures Evolves(s, Swap32(s, t, m, taken, refused), t)
  {
    var x := s.mx[m].(w := FromU(LOCKED_AND_CONTENDED));
    if s.mx[m].w.locked % 2 == 0 {
      assert Swap32(s, t, m, taken, refused) == Goto(SetMutex(s, m, x.(owner := Some(t))), t, taken);
      MoveWithMutexEvolves(s, t, m, x.(owner := Some(t)), taken);
    } else {
      assert Swap32(s, t, m, taken, refused) == Goto(SetMutex(s, m, x), t, refused);
      MoveWithMutexEvolves(s, t, m, x, refused);
    }
  }

  lemma LockStepEvolves(s: State, t: Tid, ch: Choice)
    requires Inv(s) && t < |s.pc|
    ensures InRange(s, s.pc[t]) && Evolves(s, LockStep(s, t, ch), t)
  {
    assert ThreadOk(s, t);
    match s.pc[t]
    case Spin(m, inSegment, fuel) =>
      assert MutexOk(s, m);
      Swap8Evolves(s, t, m, Idle(Ok), if fuel == 0 then Mark(m, inSegment) else Spin(m, inSegment, fuel - 1));
    case Mark(m, inSegment) =>
      assert MutexOk(s, m);
      Swap32Evolves(s, t, m, Idle(Ok), if inSegment then NapCall(m) else Remark(m, InLock));
    case Remark(m, k) =>
      assert MutexOk(s, m);
      Swap32Evolves(s, t, m, Idle(CodeOf(k, ch.late)), WaitCall(m, k));
    case TryOnce(m) =>
      assert MutexOk(s, m);
      Swap8Evolves(s, t, m, Idle(Ok), Idle(Busy));
    case _ => QuietLockStepEvolves(s, t, ch);
  }

  lemma QuietLockStepEvolves(s: State, t: Tid, ch: Choice)
    requires t < |s.pc| && InRange(s, s.pc[t])
    requires !s.pc[t].Spin? && !s.pc[t].Mark? && !s.pc[t].Remark? && !s.pc[t].TryOnce?
    ensures Evolves(s, LockStep(s, t, ch), t)
  {
    StayEvolves(s, t);
    GotoEvolves(s, s, t, LockStep(s, t, ch).pc[t]);
  }

  lemma UnlockStepEvolves(s: State, t: Tid, ch: Choice)
    requires Inv(s) && Enabled(s, t, ch) && s.pc[t].Unlocking?
    ensures Evolves(s, UnlockStep(s, t, ch), t)
  {
    assert ThreadOk(s, t);
    assert MutexOk(s, s.pc[t].m);
  }

  /** A condition variable that the mover binds to its own mutex, increments, or queues itself on. */
  lemma SetCondEvolves(s: State, t: Tid, c: Cid, x: Cond)
    requires t < |s.pc| && HasCond(s, c) && x.incs >= s.cv[c].incs
    requires x.m == s.cv[c].m || (s.cv[c].m.None? && x.m.Some? && Owns(s, t, x.m.value))
    requires x.q == s.cv[c].q || x.q == s.cv[c].q + [t]
    ensures Evolves(s, SetCond(s, c, x), t)
  {
  }

  lemma WaitStepEvolves(s: State, t: Tid, ch: Choice)
    requires Inv(s) && t < |s.pc| && (s.pc[t].Binding? || s.pc[t].CondCall?)
    ensures InRange(s, s.pc[t]) && Evolves(s, WaitStep(s, t, ch), t)
  {
    assert ThreadOk(s, t);
    var p, c, x := WaitStep(s, t, ch).pc[t], s.pc[t].c, WaitStep(s, t, ch).cv[s.pc[t].c];
    SetCondEvolves(s, t, c, x);
    GotoEvolves(s, SetCond(s, c, x), t, p);
    assert WaitStep(s, t, ch) == Goto(SetCond(s, c, x), t, p);
  }

  lemma DequeueEvolves(s: State, c: Cid, i: nat, t: Tid)
    requires Inv(s) && t < |s.pc| && HasCond(s, c) && i < |s.cv[c].q|
    ensures Evolves(s, Dequeue(s, c, i), t)
  {
    assert CondOk(s, c);
    forall t': Tid | t' in s.cv[c].q && t' != s.cv[c].q[i]
      ensures t' in RemoveAt(s.cv[c].q, i)
    {
      StaysQueued(s.cv[c].q, i, t');
    }
  }

  lemma RequeueEvolves(s: State, c: Cid, m: Mid, i: nat, t: Tid)
    requires Inv(s) && t < |s.pc| && BoundTo(s, c, m) && i < |s.cv[c].q|
    ensures Evolves(s, Requeue(s, c, m, i), t)
  {
    assert CondOk(s, c);
    forall t': Tid | t' < |s.pc| ensures ThreadOk(s, t') {}
  }

  lemma SignalStepEvolves(s: State, t: Tid, ch: Choice)
    requires Inv(s) && Enabled(s, t, ch) && Signalling(s.pc[t])
    ensures Evolves(s, SignalStep(s, t, ch), t)
  {
    assert ThreadOk(s, t);
    StayEvolves(s, t);
    match s.pc[t]
    case SignalInc(c) => IncrementEvolves(s, t, c, SignalWake(c));
    case BroadcastInc(c, m) => IncrementEvolves(s, t, c, BroadcastRequeue(c, m));
    case SignalWake(c) =>
      if s.cv[c].q == [] {
        GotoEvolves(s, s, t, Idle(Ok));
      } else {
        DequeueEvolves(s, c, ch.pick, t);
        GotoEvolves(s, Dequeue(s, c, ch.pick), t, Idle(Ok));
      }
    case BroadcastRequeue(c, m) =>
      if s.cv[c].q == [] {
        GotoEvolves(s, s, t, Idle(Ok));
      } else {
        RequeueEvolves(s, c, m, ch.pick, t);
        GotoEvolves(s, Requeue(s, c, m, ch.pick), t, Idle(Ok));
      }
    case BroadcastRead(c) => GotoEvolves(s, s, t, SignalStep(s, t, ch).pc[t]);
  }

  lemma IncrementEvolves(s: State, t: Tid, c: Cid, p: Pc)
    requires t < |s.pc| && HasCond(s, c)
    ensures Evolves(s, Goto(SetCond(s, c, s.cv[c].(incs := s.cv[c].incs + 1)), t, p), t)
  {
    var x := s.cv[c].(incs := s.cv[c].incs + 1);
    SetCondEvolves(s, t, c, x);
    GotoEvolves(s, SetCond(s, c, x), t, p);
  }

  lemma CallStepEvolves(s: State, t: Tid, ch: Choice)
    requires t < |s.pc| && CallAllowed(s, t, ch.op)
    ensures Evolves(s, CallStep(s, t, ch), t)
  {
    StayEvolves(s, t);
    GotoEvolves(s, s, t, CallStep(s, t, ch).pc[t]);
  }

  /** Refinement of the atomic lock, and what a step leaves alone. */
  lemma StepEvolves(s: State, t: Tid, ch: Choice)
    requires Inv(s) && Enabled(s, t, ch)
    ensures Evolves(s, Next(s, t, ch), t)
  {
    if s.pc[t].Idle? {
      assert Next(s, t, ch) == CallStep(s, t, ch);
      CallStepEvolves(s, t, ch);
    } else if s.pc[t].Unlocking? {
      assert Next(s, t, ch) == UnlockStep(s, t, ch);
      UnlockStepEvolves(s, t, ch);
    } else if s.pc[t].Binding? || s.pc[t].CondCall? {
      assert Next(s, t, ch) == WaitStep(s, t, ch);
      WaitStepEvolves(s, t, ch);
    } else if s.pc[t].CondAsleep? {
      assert Next(s, t, ch) == Dequeue(s, s.pc[t].c, ch.pick);
      DequeueEvolves(s, s.pc[t].c, ch.pick, t);
    } else if Signalling(s.pc[t]) {
      assert Next(s, t, ch) == SignalStep(s, t, ch);
      SignalStepEvolves(s, t, ch);
    } else {
      assert Next(s, t, ch) == LockStep(s, t, ch);
      LockStepEvolves(s, t, ch);
    }
  }

  // ----- the invariant is kept

  lemma BystanderOk(s: State, s': State, t: Tid, t': Tid)
    requires Evolves(s, s', t) && t' < |s.pc| && t' != t && ThreadOk(s, t')
    ensures ThreadOk(s', t')
  {
    assert Bystander(s.pc[t'], s'.pc[t'], s);
    var m := if s.pc[t'].Unlocking? || s.pc[t'].Binding? then s.pc[t'].m else 0;
    if HasMutex(s, m) {
      assert AtomicStep(s.mx[m].owner, s'.mx[m].owner, t);
    }
  }

  lemma LockMoverOk(s: State, t: Tid, ch: Choice)
    requires Inv(s) && Enabled(s, t, ch) && Locking(s.pc[t])
    ensures ThreadOk(LockStep(s, t, ch), t)
  {
    assert ThreadOk(s, t);
  }

  lemma UnlockMoverOk(s: State, t: Tid, ch: Choice)
    requires Inv(s) && Enabled(s, t, ch) && s.pc[t].Unlocking?
    ensures ThreadOk(UnlockStep(s, t, ch), t)
  {
    assert ThreadOk(s, t);
  }

  lemma WaitMoverOk(s: State, t: Tid, ch: Choice)
    requires Inv(s) && Enabled(s, t, ch) && (s.pc[t].Binding? || s.pc[t].CondCall?)
    ensures ThreadOk(WaitStep(s, t, ch), t)
  {
    assert ThreadOk(s, t);
  }

  lemma SignalMoverOk(s: State, t: Tid, ch: Choice)
    requires Inv(s) && Enabled(s, t, ch) && Signalling(s.pc[t])
    ensures ThreadOk(SignalStep(s, t, ch), t)
  {
    assert ThreadOk(s, t);
    if s.pc[t].BroadcastRead? { assert CondOk(s, s.pc[t].c); }
  }

  lemma MoverOk(s: State, t: Tid, ch: Choice)
    requires Inv(s) && Enabled(s, t, ch)
    ensures ThreadOk(Next(s, t, ch), t)
  {
    assert ThreadOk(s, t);
    if s.pc[t].Unlocking? {
      UnlockMoverOk(s, t, ch);
    } else if s.pc[t].Binding? || s.pc[t].CondCall? {
      WaitMoverOk(s, t, ch);
    } else if Signalling(s.pc[t]) {
      SignalMoverOk(s, t, ch);
    } else if s.pc[t].CondAsleep? {
      assert CondOk(s, s.pc[t].c);
    } else if Locking(s.pc[t]) {
      LockMoverOk(s, t, ch);
    }
  }

  predicate OwesAdjustment(p: Pc, m: Mid) { p.Unlocking? && p.m == m && (p.at.Test? || p.at.Adjust?) }

  /** A step that leaves the counters of mutex `m` alone, by a thread that owes no adjustment. */
  lemma CountersUntouched(s: State, s': State, t: Tid, m: Mid)
    requires Evolves(s, s', t) && HasMutex(s, m) && MutexOk(s, m)
    requires SameCounters(s.mx[m], s'.mx[m]) && WordOk(s'.mx[m])
    requires !OwesAdjustment(s.pc[t], m) && !OwesAdjustment(s'.pc[t], m)
    ensures MutexOk(s', m)
  {
    assert AtomicStep(s.mx[m].owner, s'.mx[m].owner, t);
    if s.mx[m].owner.Some? && s.mx[m].owner.value != t {
      var o := s.mx[m].owner.value;
      assert Bystander(s.pc[o], s'.pc[o], s);
    }
  }

  /** Counting one more slow unlock: the count wraps with the unsigned counter, and a multiple of
      2048 makes an adjustment due. */
  lemma CountOneMore(slow: nat, adjusts: nat)
    requires adjusts == slow / ADJUST_PERIOD
    ensures (slow % UINT + 1) % UINT == (slow + 1) % UINT
    ensures adjusts + (if (slow + 1) % ADJUST_PERIOD == 0 then 1 else 0) == (slow + 1) / ADJUST_PERIOD
  {
  }

  /** The test on the wrapped counter decides as one on the true count would. */
  lemma WrapKeepsPeriod(slow: nat)
    ensures slow % UINT % ADJUST_PERIOD == slow % ADJUST_PERIOD
  {
    var q := slow / UINT;
    assert slow == ADJUST_PERIOD * (q * 2097152) + slow % UINT;
  }

  lemma AdjustKeepsTicks(x: Mutex, wakes0: nat, wakes1: nat)
    requires TicksOk(x)
    ensures TicksOk(x.(ticks := AdjustTicks(x.ticks, wakes0, wakes1), adjusts := x.adjusts + 1))
  {
  }

  /** The counters stay exact through each access of an unlock by the owner. */
  lemma UnlockKeepsCounters(x: Mutex, at: UStage, ch: Choice)
    requires CountersOk(x, OwedAt(x, at)) && (at.Store? ==> at.v == x.cntUnlock)
    ensures var x' := UnlockEffect(x, at, ch);
            var n := NextStage(x, at);
            CountersOk(x', n.Some? && OwedAt(x', n.value))
  {
    match at
    case Store(_) => CountOneMore(x.slow, x.adjusts);
    case Test => WrapKeepsPeriod(x.slow);
    case Adjust => AdjustKeepsTicks(x, ch.wakes0, ch.wakes1);
    case _ =>
  }

  lemma UnlockKeepsWord(x: Mutex, at: UStage, ch: Choice)
    requires WordOk(x) && (at.Cas? || at.Release? ==> x.owner.Some?)
    ensures WordOk(UnlockEffect(x, at, ch))
  {
  }

  lemma HolderKeepsMutexOk(s: State, t: Tid, ch: Choice)
    requires Inv(s) && Enabled(s, t, ch) && s.pc[t].Unlocking? && Holding(s.pc[t].at)
    ensures MutexOk(UnlockStep(s, t, ch), s.pc[t].m)
  {
    var m := s.pc[t].m;
    assert ThreadOk(s, t) && MutexOk(s, m);
    UnlockKeepsWord(s.mx[m], s.pc[t].at, ch);
    UnlockKeepsCounters(s.mx[m], s.pc[t].at, ch);
  }

  lemma UnlockStepWord(s: State, t: Tid, ch: Choice, m: Mid)
    requires t < |s.pc| && InRange(s, s.pc[t]) && s.pc[t].Unlocking? && HasMutex(s, m) && WordOk(s.mx[m])
    requires Holding(s.pc[t].at) ==> Owns(s, t, s.pc[t].m)
    ensures WordOk(UnlockStep(s, t, ch).mx[m])
    ensures s.pc[t].m != m || !Holding(s.pc[t].at) ==>
              && SameCounters(s.mx[m], UnlockStep(s, t, ch).mx[m])
              && !OwesAdjustment(s.pc[t], m)
              && !OwesAdjustment(UnlockStep(s, t, ch).pc[t], m)
  {
    if s.pc[t].m == m { UnlockKeepsWord(s.mx[m], s.pc[t].at, ch); }
  }

  lemma UnlockKeepsMutexOk(s: State, t: Tid, ch: Choice, m: Mid)
    requires Inv(s) && Enabled(s, t, ch) && HasMutex(s, m) && s.pc[t].Unlocking?
    ensures HasMutex(UnlockStep(s, t, ch), m) && MutexOk(UnlockStep(s, t, ch), m)
  {
    if s.pc[t].m == m && Holding(s.pc[t].at) {
      HolderKeepsMutexOk(s, t, ch);
    } else {
      assert ThreadOk(s, t) && MutexOk(s, m);
      UnlockStepWord(s, t, ch, m);
      UnlockStepEvolves(s, t, ch);
      CountersUntouched(s, UnlockStep(s, t, ch), t, m);
    }
  }

  lemma LockStepWord(s: State, t: Tid, ch: Choice, m: Mid)
    requires t < |s.pc| && InRange(s, s.pc[t]) && Locking(s.pc[t]) && HasMutex(s, m) && WordOk(s.mx[m])
    ensures WordOk(LockStep(s, t, ch).mx[m]) && SameCounters(s.mx[m], LockStep(s, t, ch).mx[m])
    ensures !LockStep(s, t, ch).pc[t].Unlocking?
  {
  }

  lemma LockKeepsMutexOk(s: State, t: Tid, ch: Choice, m: Mid)
    requires Inv(s) && Enabled(s, t, ch) && HasMutex(s, m) && Locking(s.pc[t])
    ensures HasMutex(LockStep(s, t, ch), m) && MutexOk(LockStep(s, t, ch), m)
  {
    assert MutexOk(s, m);
    LockStepWord(s, t, ch, m);
    LockStepEvolves(s, t, ch);
    CountersUntouched(s, LockStep(s, t, ch), t, m);
  }

  /** Only lock and unlock write to a mutex, and no other step leads into the stages of an unlock at which
      an adjustment is due. */
  lemma OthersLeaveMutexes(s: State, t: Tid, ch: Choice)
    requires Enabled(s, t, ch) && !s.pc[t].Unlocking? && !Locking(s.pc[t])
    ensures Next(s, t, ch).mx == s.mx
    ensures t < |Next(s, t, ch).pc| && forall m: Mid :: !OwesAdjustment(Next(s, t, ch).pc[t], m)
  {
  }

  lemma MutexStaysOk(s: State, t: Tid, ch: Choice, m: Mid)
    requires Inv(s) && Enabled(s, t, ch) && HasMutex(s, m)
    ensures HasMutex(Next(s, t, ch), m) && MutexOk(Next(s, t, ch), m)
  {
    if s.pc[t].Unlocking? {
      UnlockKeepsMutexOk(s, t, ch, m);
    } else if Locking(s.pc[t]) {
      LockKeepsMutexOk(s, t, ch, m);
    } else {
      assert MutexOk(s, m);
      StepEvolves(s, t, ch);
      OthersLeaveMutexes(s, t, ch);
      CountersUntouched(s, Next(s, t, ch), t, m);
    }
  }

  /** A step that leaves condition variable `c` and its queued threads alone. */
  lemma UntouchedCondOk(s: State, s': State, t: Tid, c: Cid)
    requires HasCond(s, c) && CondOk(s, c) && |s'.mx| == |s.mx| && |s'.pc| == |s.pc|
    requires HasCond(s', c) && s'.cv[c].q == s.cv[c].q
    requires s'.cv[c].m == s.cv[c].m || (s'.cv[c].m.Some? && HasMutex(s, s'.cv[c].m.value))
    requires forall t': Tid :: t' < |s.pc| && s.pc[t'].CondAsleep? && s.pc[t'].c == c ==> s'.pc[t'] == s.pc[t']
    ensures CondOk(s', c)
  {
  }

  lemma LockKeepsCondOk(s: State, t: Tid, ch: Choice, c: Cid)
    requires Inv(s) && Enabled(s, t, ch) && HasCond(s, c) && !s.pc[t].CondAsleep?
    ensures HasCond(LockStep(s, t, ch), c) && CondOk(LockStep(s, t, ch), c)
  {
    assert CondOk(s, c);
    UntouchedCondOk(s, LockStep(s, t, ch), t, c);
  }

  lemma UnlockKeepsCondOk(s: State, t: Tid, ch: Choice, c: Cid)
    requires Inv(s) && Enabled(s, t, ch) && HasCond(s, c) && s.pc[t].Unlocking?
    ensures HasCond(UnlockStep(s, t, ch), c) && CondOk(UnlockStep(s, t, ch), c)
  {
    assert CondOk(s, c);
    UntouchedCondOk(s, UnlockStep(s, t, ch), t, c);
  }

  lemma WaitKeepsCondOk(s: State, t: Tid, ch: Choice, c: Cid)
    requires Inv(s) && Enabled(s, t, ch) && HasCond(s, c) && (s.pc[t].Binding? || s.pc[t].CondCall?)
    ensures HasCond(WaitStep(s, t, ch), c) && CondOk(WaitStep(s, t, ch), c)
  {
    assert ThreadOk(s, t) && CondOk(s, c);
    var s' := WaitStep(s, t, ch);
    if s'.cv[c].q == s.cv[c].q { UntouchedCondOk(s, s', t, c); }
  }

  lemma DequeueKeepsCondOk(s: State, d: Cid, i: nat, c: Cid)
    requires Inv(s) && HasCond(s, d) && i < |s.cv[d].q| && HasCond(s, c)
    ensures HasCond(Dequeue(s, d, i), c) && CondOk(Dequeue(s, d, i), c)
  {
    assert CondOk(s, c) && CondOk(s, d);
  }

  lemma RequeueKeepsCondOk(s: State, d: Cid, m: Mid, i: nat, c: Cid)
    requires Inv(s) && HasCond(s, d) && i < |s.cv[d].q| && HasCond(s, c)
    ensures HasCond(Requeue(s, d, m, i), c) && CondOk(Requeue(s, d, m, i), c)
  {
    assert CondOk(s, c) && CondOk(s, d);
  }

  lemma SignalKeepsCondOk(s: State, t: Tid, ch: Choice, c: Cid)
    requires Inv(s) && Enabled(s, t, ch) && HasCond(s, c) && Signalling(s.pc[t])
    ensures HasCond(SignalStep(s, t, ch), c) && CondOk(SignalStep(s, t, ch), c)
  {
    assert CondOk(s, c);
    var s' := SignalStep(s, t, ch);
    var d := s.pc[t].c;
    if s.pc[t].SignalWake? && s.cv[d].q != [] {
      DequeueKeepsCondOk(s, d, ch.pick, c);
      UntouchedCondOk(Dequeue(s, d, ch.pick), s', t, c);
    } else if s.pc[t].BroadcastRequeue? && s.cv[d].q != [] {
      RequeueKeepsCondOk(s, d, s.pc[t].m, ch.pick, c);
      assert CondOk(s, d);
      UntouchedCondOk(Requeue(s, d, s.pc[t].m, ch.pick), s', t, c);
    } else {
      UntouchedCondOk(s, s', t, c);
    }
  }

  lemma CondStaysOk(s: State, t: Tid, ch: Choice, c: Cid)
    requires Inv(s) && Enabled(s, t, ch) && HasCond(s, c)
    ensures HasCond(Next(s, t, ch), c) && CondOk(Next(s, t, ch), c)
  {
    if s.pc[t].Idle? {
      assert CondOk(s, c);
      UntouchedCondOk(s, Next(s, t, ch), t, c);
    } else if s.pc[t].Unlocking? {
      assert Next(s, t, ch) == UnlockStep(s, t, ch);
      UnlockKeepsCondOk(s, t, ch, c);
    } else if s.pc[t].Binding? || s.pc[t].CondCall? {
      assert Next(s, t, ch) == WaitStep(s, t, ch);
      WaitKeepsCondOk(s, t, ch, c);
    } else if s.pc[t].CondAsleep? {
      assert Next(s, t, ch) == Dequeue(s, s.pc[t].c, ch.pick);
      DequeueKeepsCondOk(s, s.pc[t].c, ch.pick, c);
    } else if Signalling(s.pc[t]) {
      assert Next(s, t, ch) == SignalStep(s, t, ch);
      SignalKeepsCondOk(s, t, ch, c);
    } else {
      assert Next(s, t, ch) == LockStep(s, t, ch);
      LockKeepsCondOk(s, t, ch, c);
    }
  }

  lemma StepKeepsInv(s: State, t: Tid, ch: Choice)
    requires Inv(s) && Enabled(s, t, ch)
    ensures Inv(Next(s, t, ch))
  {
    var s' := Next(s, t, ch);
    StepEvolves(s, t, ch);
    forall t': Tid | t' < |s'.pc| ensures ThreadOk(s', t') {
      if t' == t { MoverOk(s, t, ch); } else { BystanderOk(s, s', t, t'); }
    }
    forall m: Mid | HasMutex(s', m) ensures MutexOk(s', m) { MutexStaysOk(s, t, ch, m); }
    forall c: Cid | HasCond(s', c) ensures CondOk(s', c) { CondStaysOk(s, t, ch, c); }
  }
}

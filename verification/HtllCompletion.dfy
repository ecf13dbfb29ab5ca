/**
 Total completion: threads that lock and unlock one mutex, each any number of times and outside any
 segment, under a kernel without spurious wakeups.  Every schedule is finite, with an explicit bound,
 and a schedule that cannot be continued has completed every round of every thread.
 */
module HtllCompletion {
  import opened LockWord
  import opened Options
  import opened HtllModel
  import opened HtllSafety
  import opened HtllRuns
  import opened HtllCover

  /** `left[t]` lock-unlock rounds that thread `t` has yet to begin, on mutex 0. */
  datatype Work = Work(s: State, left: seq<nat>)

  function Start(left: seq<nat>): Work { Work(Init(1, 0, |left|), left) }

  /** The steps of the programs: at most `fuel` polls beyond the two that every spin phase makes;
      a sleeper moves only when it is woken. */
  ghost predicate Moves(w: Work, t: Tid, ch: Choice, fuel: nat) {
    && |w.left| == |w.s.pc|
    && Enabled(w.s, t, ch)
    && match w.s.pc[t]
       case Idle(_) =>
         if Owns(w.s, t, 0) then ch.op == OpUnlock(0)
         else w.left[t] > 0 && ch.op == OpLock(0, false) && ch.fuel <= fuel
       case Asleep(_, _, _) => false
       case _ => true
  }

  function Advance(w: Work, t: Tid, ch: Choice): Work
    requires |w.left| == |w.s.pc| && Enabled(w.s, t, ch)
  {
    var begins := w.s.pc[t].Idle? && !Owns(w.s, t, 0) && w.left[t] > 0;
    Work(Next(w.s, t, ch), if begins then w.left[t := w.left[t] - 1] else w.left)
  }

  // ----- the invariant

  /** Where a thread of these programs can be. */
  predicate Programmed(p: Pc, owns: bool, fuel: nat) {
    match p
    case Idle(code) => code == Ok
    case Spin(m, inSegment, f) => m == 0 && !inSegment && f <= fuel + 1 && !owns
    case Mark(m, inSegment) => m == 0 && !inSegment && !owns
    case Remark(m, k) => m == 0 && k == InLock && !owns
    case WaitCall(m, k) => m == 0 && k == InLock && !owns
    case Asleep(a, m, k) => a == 0 && m == 0 && k == InLock && !owns
    case Unlocking(at, m, next) => m == 0 && next == ToCaller && (owns <==> Holding(at))
    case _ => false
  }

  ghost predicate WorkOk(w: Work, fuel: nat) {
    && Inv(w.s) && |w.s.mx| == 1 && |w.left| == |w.s.pc|
    && J(w.s, 0) && K(w.s, 0)
    && forall t: Tid :: t < |w.s.pc| ==> Programmed(w.s.pc[t], Owns(w.s, t, 0), fuel)
  }

  lemma LockerStaysProgrammed(s: State, t: Tid, ch: Choice, fuel: nat)
    requires t < |s.pc| && |s.mx| == 1 && Locking(s.pc[t]) && InRange(s, s.pc[t]) && !s.pc[t].Asleep?
    requires Programmed(s.pc[t], Owns(s, t, 0), fuel)
    ensures var s' := LockStep(s, t, ch); t < |s'.pc| && Programmed(s'.pc[t], Owns(s', t, 0), fuel)
  {
  }

  lemma UnlockerStaysProgrammed(s: State, t: Tid, ch: Choice, fuel: nat)
    requires t < |s.pc| && |s.mx| == 1 && s.pc[t].Unlocking? && InRange(s, s.pc[t])
    requires Programmed(s.pc[t], Owns(s, t, 0), fuel)
    ensures var s' := UnlockStep(s, t, ch); t < |s'.pc| && Programmed(s'.pc[t], Owns(s', t, 0), fuel)
  {
  }

  lemma MoverStaysProgrammed(w: Work, t: Tid, ch: Choice, fuel: nat)
    requires |w.s.mx| == 1 && Moves(w, t, ch, fuel) && Programmed(w.s.pc[t], Owns(w.s, t, 0), fuel)
    ensures var s' := Next(w.s, t, ch); t < |s'.pc| && Programmed(s'.pc[t], Owns(s', t, 0), fuel)
  {
    if w.s.pc[t].Unlocking? {
      UnlockerStaysProgrammed(w.s, t, ch, fuel);
    } else if Locking(w.s.pc[t]) {
      LockerStaysProgrammed(w.s, t, ch, fuel);
    }
  }

  lemma OthersStayProgrammed(s: State, s': State, t: Tid, t': Tid, fuel: nat)
    requires Evolves(s, s', t) && |s.mx| == 1 && t' < |s.pc| && t' != t
    requires Programmed(s.pc[t'], Owns(s, t', 0), fuel)
    ensures Programmed(s'.pc[t'], Owns(s', t', 0), fuel) && Owns(s', t', 0) == Owns(s, t', 0)
  {
    assert Bystander(s.pc[t'], s'.pc[t'], s);
    assert AtomicStep(s.mx[0].owner, s'.mx[0].owner, t);
  }

  lemma WorkStaysOk(w: Work, t: Tid, ch: Choice, fuel: nat)
    requires WorkOk(w, fuel) && Moves(w, t, ch, fuel)
    ensures WorkOk(Advance(w, t, ch), fuel)
  {
    var s' := Next(w.s, t, ch);
    StepKeepsInv(w.s, t, ch);
    StepEvolves(w.s, t, ch);
    StepKeepsJ(w.s, t, ch, 0);
    forall t': Tid | t' < |w.s.pc| ensures w.s.pc[t'] != Napping(0) {
      assert Programmed(w.s.pc[t'], Owns(w.s, t', 0), fuel);
    }
    StepKeepsK(w.s, t, ch, 0);
    forall t': Tid | t' < |s'.pc| ensures Programmed(s'.pc[t'], Owns(s', t', 0), fuel) {
      assert Programmed(w.s.pc[t'], Owns(w.s, t', 0), fuel);
      if t' == t { MoverStaysProgrammed(w, t, ch, fuel); } else { OthersStayProgrammed(w.s, s', t, t', fuel); }
    }
  }

  // ----- the measure

  /** Releases, clears and wakes that a thread has yet to make in its current round. */
  function Writes(p: Pc, owns: bool): nat {
    match p
    case Idle(_) => if owns then 3 else 0
    case Unlocking(at, _, _) => if Holding(at) then 3 else if at.Wake? then 1 else 2
    case _ => 3
  }

  /** Steps to the next release, or to sleep, as long as nobody else writes.  A thread about to sleep
      goes round its loop once more if the word has changed since it marked it. */
  function Distance(p: Pc, owns: bool, word: Word): nat {
    match p
    case Idle(_) => if owns then 9 else 0
    case Spin(_, _, f) => 13 + f
    case Mark(_, _) => 12
    case Remark(_, _) => 11
    case WaitCall(_, _) => if word.U() == LOCKED_AND_CONTENDED then 10 else 12
    case Asleep(_, _, _) => 9
    case Unlocking(at, _, _) => (
      match at
      case Look => 8
      case Cas => 7
      case Load => 6
      case Store(_) => 5
      case Test => 4
      case Adjust => 3
      case Release => 2
      case Peek1 => 2
      case Peek2 => 1
      case Clear => 0
      case Wake => 0
    )
    case _ => 0
  }

  function A(w: Work, t: Tid): nat
    requires |w.left| == |w.s.pc| && t < |w.left|
  {
    3 * w.left[t] + Writes(w.s.pc[t], Owns(w.s, t, 0))
  }

  function D(w: Work, t: Tid, fuel: nat): nat
    requires |w.left| == |w.s.pc| && t < |w.left| && |w.s.mx| == 1
  {
    w.left[t] * (fuel + 20) + Distance(w.s.pc[t], Owns(w.s, t, 0), w.s.mx[0].w)
  }

  /** Each remaining write outweighs what it can add to the distances of all other threads. */
  function Rank(w: Work, t: Tid, fuel: nat): nat
    requires |w.left| == |w.s.pc| && t < |w.left| && |w.s.mx| == 1
  {
    A(w, t) * (2 * |w.left| + 1) + D(w, t, fuel)
  }

  function Sum(f: seq<nat>): nat { if f == [] then 0 else Sum(f[..|f| - 1]) + f[|f| - 1] }

  function Ranks(w: Work, fuel: nat): (f: seq<nat>)
    requires |w.left| == |w.s.pc| && |w.s.mx| == 1
    ensures |f| == |w.left|
  {
    seq(|w.left|, t requires 0 <= t < |w.left| => Rank(w, t, fuel))
  }

  function Measure(w: Work, fuel: nat): nat
    requires |w.left| == |w.s.pc| && |w.s.mx| == 1
  {
    Sum(Ranks(w, fuel))
  }

  /** Does the step write: release the lock byte, clear the mark, wake, or skip the clear and wake? */
  predicate IsWrite(w: Work, w': Work, t: Tid)
    requires |w.left| == |w.s.pc| == |w'.left| == |w'.s.pc| && t < |w.left|
  {
    A(w', t) < A(w, t)
  }

  /** What the invariant says of the thread that moves. */
  predicate AtWork(w: Work, t: Tid, fuel: nat) {
    && t < |w.s.pc| == |w.left| && |w.s.mx| == 1 && WordOk(w.s.mx[0])
    && ThreadOk(w.s, t) && Programmed(w.s.pc[t], Owns(w.s, t, 0), fuel)
  }

  lemma WorkerAtWork(w: Work, t: Tid, fuel: nat)
    requires WorkOk(w, fuel) && t < |w.s.pc|
    ensures AtWork(w, t, fuel)
  {
    assert Programmed(w.s.pc[t], Owns(w.s, t, 0), fuel) && ThreadOk(w.s, t) && MutexOk(w.s, 0);
  }

  predicate Begins(w: Work, t: Tid)
    requires t < |w.s.pc|
  {
    w.s.pc[t].Idle? && !Owns(w.s, t, 0)
  }

  lemma LockerDescends(w: Work, t: Tid, ch: Choice, fuel: nat)
    requires Moves(w, t, ch, fuel) && |w.s.mx| == 1 && Programmed(w.s.pc[t], Owns(w.s, t, 0), fuel) && Locking(w.s.pc[t])
    ensures var s' := LockStep(w.s, t, ch);
            && t < |s'.pc| && |s'.mx| == 1
            && Writes(s'.pc[t], Owns(s', t, 0)) == Writes(w.s.pc[t], Owns(w.s, t, 0))
            && Distance(s'.pc[t], Owns(s', t, 0), s'.mx[0].w) < Distance(w.s.pc[t], Owns(w.s, t, 0), w.s.mx[0].w)
  {
  }

  lemma UnlockerDescends(w: Work, t: Tid, ch: Choice, fuel: nat)
    requires Moves(w, t, ch, fuel) && AtWork(w, t, fuel) && w.s.pc[t].Unlocking?
    ensures var s' := UnlockStep(w.s, t, ch);
            && t < |s'.pc| && |s'.mx| == 1
            && var n, n' := Writes(w.s.pc[t], Owns(w.s, t, 0)), Writes(s'.pc[t], Owns(s', t, 0));
               var d, d' := Distance(w.s.pc[t], Owns(w.s, t, 0), w.s.mx[0].w), Distance(s'.pc[t], Owns(s', t, 0), s'.mx[0].w);
               n' <= n && d' <= d && (n' < n || d' < d)
  {
  }

  /** The thread that moves gets nearer, and writes at no cost in distance. */
  lemma MoverDescends(w: Work, t: Tid, ch: Choice, fuel: nat)
    requires WorkOk(w, fuel) && Moves(w, t, ch, fuel)
    requires |Next(w.s, t, ch).pc| == |w.s.pc| && |Next(w.s, t, ch).mx| == 1
    ensures var w' := Advance(w, t, ch);
            && A(w', t) <= A(w, t) && D(w', t, fuel) <= D(w, t, fuel)
            && (IsWrite(w, w', t) || D(w', t, fuel) < D(w, t, fuel))
  {
    WorkerAtWork(w, t, fuel);
    if Begins(w, t) {
      assert (w.left[t] - 1) * (fuel + 20) == w.left[t] * (fuel + 20) - fuel - 20;
    } else if w.s.pc[t].Unlocking? {
      UnlockerDescends(w, t, ch, fuel);
    } else if Locking(w.s.pc[t]) {
      LockerDescends(w, t, ch, fuel);
    }
  }

  /** Another thread is brought at most two steps further away, and only if the mark is taken from the
      word or the thread is woken. */
  lemma OtherRank(w: Work, w': Work, t': Tid, fuel: nat, write: bool)
    requires |w.left| == |w.s.pc| == |w'.left| == |w'.s.pc| && t' < |w.left| && |w.s.mx| == |w'.s.mx| == 1
    requires w'.left[t'] == w.left[t'] && Owns(w'.s, t', 0) == Owns(w.s, t', 0)
    requires Programmed(w.s.pc[t'], Owns(w.s, t', 0), fuel)
    requires w'.s.pc[t'] == w.s.pc[t'] || (w.s.pc[t'].Asleep? && w'.s.pc[t'] == Woken(w.s.pc[t']))
    requires !write ==> w'.s.pc[t'] == w.s.pc[t']
    requires !write && w.s.mx[0].w.U() == LOCKED_AND_CONTENDED ==> w'.s.mx[0].w.U() == LOCKED_AND_CONTENDED
    ensures A(w', t') == A(w, t') && D(w', t', fuel) <= D(w, t', fuel) + if write then 2 else 0
  {
  }

  /** A write brings another thread at most two steps further away, any other step not at all. */
  lemma OthersAfterStep(w: Work, t: Tid, ch: Choice, fuel: nat, t': Tid)
    requires WorkOk(w, fuel) && Moves(w, t, ch, fuel) && t' < |w.s.pc| && t' != t
    requires Evolves(w.s, Next(w.s, t, ch), t)
    ensures var w' := Advance(w, t, ch);
            && A(w', t') == A(w, t')
            && D(w', t', fuel) <= D(w, t', fuel) + if IsWrite(w, w', t) then 2 else 0
  {
    var w' := Advance(w, t, ch);
    assert Programmed(w.s.pc[t'], Owns(w.s, t', 0), fuel);
    OthersStayProgrammed(w.s, w'.s, t, t', fuel);
    assert Bystander(w.s.pc[t'], w'.s.pc[t'], w.s);
    WorkerAtWork(w, t, fuel);
    if !IsWrite(w, w', t) { NoWriteKeepsMark(w, t, ch, fuel); NoWriteWakesNobody(w, t, ch, fuel, t'); }
    OtherRank(w, w', t', fuel, IsWrite(w, w', t));
  }

  lemma NoWriteKeepsMark(w: Work, t: Tid, ch: Choice, fuel: nat)
    requires Moves(w, t, ch, fuel) && AtWork(w, t, fuel) && |Next(w.s, t, ch).pc| == |w.s.pc|
    requires |Next(w.s, t, ch).mx| == 1 && !IsWrite(w, Advance(w, t, ch), t)
    ensures w.s.mx[0].w.U() == LOCKED_AND_CONTENDED ==> Next(w.s, t, ch).mx[0].w.U() == LOCKED_AND_CONTENDED
  {
  }

  lemma NoWriteWakesNobody(w: Work, t: Tid, ch: Choice, fuel: nat, t': Tid)
    requires Moves(w, t, ch, fuel) && AtWork(w, t, fuel) && |Next(w.s, t, ch).pc| == |w.s.pc|
    requires |Next(w.s, t, ch).mx| == 1 && !IsWrite(w, Advance(w, t, ch), t) && t' < |w.s.pc| && t' != t
    ensures Next(w.s, t, ch).pc[t'] == w.s.pc[t']
  {
  }

  /** Raising every other entry by at most `up` and lowering entry `t` by more than `up * |f|` in all
      lowers the sum. */
  lemma {:induction false} SumBound(f: seq<nat>, g: seq<nat>, t: nat, up: nat, down: int)
    requires |f| == |g|
    requires forall i :: 0 <= i < |f| && i != t ==> g[i] <= f[i] + up
    requires t < |f| ==> g[t] + down <= f[t]
    ensures Sum(g) + (if t < |f| then down else 0) <= Sum(f) + up * |f|
  {
    if f != [] {
      SumBound(f[..|f| - 1], g[..|g| - 1], t, up, down);
      assert up * |f| == up * (|f| - 1) + up;
    }
  }

  /** If one thread writes or gets nearer, and the others move away by at most two and only for a
      write, the measure falls. */
  lemma MeasureFalls(w: Work, w': Work, t: Tid, fuel: nat)
    requires |w.left| == |w.s.pc| == |w'.left| == |w'.s.pc| && t < |w.left| && |w.s.mx| == |w'.s.mx| == 1
    requires A(w', t) <= A(w, t) && D(w', t, fuel) <= D(w, t, fuel)
    requires IsWrite(w, w', t) || D(w', t, fuel) < D(w, t, fuel)
    requires forall t': nat :: t' < |w.left| && t' != t ==>
      A(w', t') == A(w, t') && D(w', t', fuel) <= D(w, t', fuel) + if IsWrite(w, w', t) then 2 else 0
    ensures Measure(w', fuel) < Measure(w, fuel)
  {
    var n, up := |w.left|, if IsWrite(w, w', t) then 2 else 0;
    forall t': nat | t' < n && t' != t ensures Rank(w', t', fuel) <= Rank(w, t', fuel) + up {
      assert A(w', t') == A(w, t');
    }
    RankDrops(A(w, t), A(w', t), D(w, t, fuel), D(w', t, fuel), n);
    SumBound(Ranks(w, fuel), Ranks(w', fuel), t, up, if IsWrite(w, w', t) then 2 * n + 1 else 1);
  }

  /** Every step lowers the measure. */
  lemma StepDescends(w: Work, t: Tid, ch: Choice, fuel: nat)
    requires WorkOk(w, fuel) && Moves(w, t, ch, fuel)
    ensures WorkOk(Advance(w, t, ch), fuel) && Measure(Advance(w, t, ch), fuel) < Measure(w, fuel)
  {
    WorkStaysOk(w, t, ch, fuel);
    StepEvolves(w.s, t, ch);
    MoverDescends(w, t, ch, fuel);
    forall t': nat | t' < |w.left| && t' != t
      ensures var w' := Advance(w, t, ch);
              A(w', t') == A(w, t') && D(w', t', fuel) <= D(w, t', fuel) + if IsWrite(w, w', t) then 2 else 0
    {
      OthersAfterStep(w, t, ch, fuel, t');
    }
    MeasureFalls(w, Advance(w, t, ch), t, fuel);
  }

  lemma RankDrops(a: nat, a': nat, d: nat, d': nat, n: nat)
    requires a' <= a && d' <= d && (a' < a || d' < d)
    ensures a' * (2 * n + 1) + d' + (if a' < a then 2 * n + 1 else 1) <= a * (2 * n + 1) + d
  {
    assert (a - a') * (2 * n + 1) == a * (2 * n + 1) - a' * (2 * n + 1);
    if a' < a { assert (a - a' - 1) * (2 * n + 1) >= 0; }
  }

  // ----- every schedule is finite

  ghost predicate WorkRun(ws: seq<Work>, events: seq<Event>, fuel: nat) {
    && |ws| == |events| + 1
    && forall i :: 0 <= i < |events| ==> WorkStepAt(ws, events, i, fuel)
  }

  ghost predicate WorkStepAt(ws: seq<Work>, events: seq<Event>, i: nat, fuel: nat)
    requires |ws| == |events| + 1 && i < |events|
  {
    Moves(ws[i], events[i].t, events[i].ch, fuel) && ws[i + 1] == Advance(ws[i], events[i].t, events[i].ch)
  }

  lemma StartOk(left: seq<nat>, fuel: nat)
    ensures WorkOk(Start(left), fuel)
  {
    InitInv(1, 0, |left|);
  }

  lemma {:induction false} RunDescends(ws: seq<Work>, events: seq<Event>, fuel: nat, n: nat)
    requires WorkRun(ws, events, fuel) && n <= |events| && WorkOk(ws[0], fuel)
    ensures WorkOk(ws[n], fuel) && n + Measure(ws[n], fuel) <= Measure(ws[0], fuel)
  {
    if n > 0 {
      RunDescends(ws, events, fuel, n - 1);
      assert WorkStepAt(ws, events, n - 1, fuel);
      StepDescends(ws[n - 1], events[n - 1].t, events[n - 1].ch, fuel);
    }
  }

  /** Steps that one round of one of `n` threads accounts for. */
  function RoundCost(n: nat, fuel: nat): nat { 6 * n + 23 + fuel }

  function Multiples(left: seq<nat>, k: nat): seq<nat> { seq(|left|, t requires 0 <= t < |left| => left[t] * k) }

  lemma {:induction false} SumOfMultiples(left: seq<nat>, k: nat)
    ensures Sum(Multiples(left, k)) == Sum(left) * k
  {
    if left != [] {
      var n := |left| - 1;
      SumOfMultiples(left[..n], k);
      assert Multiples(left, k)[..n] == Multiples(left[..n], k);
      assert (Sum(left[..n]) + left[n]) * k == Sum(left[..n]) * k + left[n] * k;
    }
  }

  lemma StartRank(left: seq<nat>, t: nat, fuel: nat)
    requires t < |left|
    ensures Rank(Start(left), t, fuel) == left[t] * RoundCost(|left|, fuel)
  {
    var w, k, n := Start(left), left[t], |left|;
    assert w.s.mx[0] == FreshMutex();
    assert A(w, t) == 3 * k && D(w, t, fuel) == k * (fuel + 20);
    assert 3 * k * (2 * n + 1) == k * (6 * n + 3);
    assert k * (6 * n + 3) + k * (fuel + 20) == k * ((6 * n + 3) + (fuel + 20));
  }

  lemma StartRanks(left: seq<nat>, fuel: nat)
    ensures Ranks(Start(left), fuel) == Multiples(left, RoundCost(|left|, fuel))
  {
    forall t: nat | t < |left|
      ensures Ranks(Start(left), fuel)[t] == Multiples(left, RoundCost(|left|, fuel))[t]
    {
      StartRank(left, t, fuel);
    }
  }

  lemma StartMeasure(left: seq<nat>, fuel: nat)
    ensures Measure(Start(left), fuel) == Sum(left) * RoundCost(|left|, fuel)
  {
    StartRanks(left, fuel);
    SumOfMultiples(left, RoundCost(|left|, fuel));
  }

  /** Any schedule of `n` threads that make `Sum(left)` rounds in all stops within
      `Sum(left) * (6n + 23 + fuel)` steps. */
  lemma SchedulesAreFinite(left: seq<nat>, ws: seq<Work>, events: seq<Event>, fuel: nat)
    requires WorkRun(ws, events, fuel) && ws[0] == Start(left)
    ensures |events| <= Sum(left) * RoundCost(|left|, fuel)
  {
    StartOk(left, fuel);
    RunDescends(ws, events, fuel, |events|);
    StartMeasure(left, fuel);
  }

  // ----- and ends with all the work done

  /** Every thread is back with 0 from its last call and has no round left, nobody sleeps, and the word is 0. */
  ghost predicate AllDone(w: Work) {
    && |w.left| == |w.s.pc| && |w.s.mx| == 1
    && (forall t: Tid :: t < |w.s.pc| ==> w.s.pc[t] == Idle(Ok) && w.left[t] == 0 && !Owns(w.s, t, 0))
    && !SomeoneSleeps(w.s, 0)
    && w.s.mx[0].w.U() == 0 && w.s.mx[0].owner.None?
  }

  ghost predicate Stuck(w: Work, fuel: nat) { forall t: Tid, ch: Choice :: !Moves(w, t, ch, fuel) }

  /** Only a sleeper, and a thread with nothing left to do, cannot move. */
  lemma WhoCannotMove(w: Work, t: Tid, fuel: nat)
    requires WorkOk(w, fuel) && t < |w.s.pc| && Stuck(w, fuel)
    ensures w.s.pc[t].Asleep? || (w.s.pc[t].Idle? && w.left[t] == 0 && !Owns(w.s, t, 0))
  {
    assert Programmed(w.s.pc[t], Owns(w.s, t, 0), fuel);
    assert ThreadOk(w.s, t);
    var z: Tid := if SomeoneSleeps(w.s, 0) then var z: Tid :| SleepsOn(w.s, z, 0); z else 0;
    var op := if Owns(w.s, t, 0) then OpUnlock(0) else OpLock(0, false);
    assert !Moves(w, t, Choice(op, 0, z, 0, 0, false), fuel);
  }

  lemma StuckMeansDone(w: Work, fuel: nat)
    requires WorkOk(w, fuel) && Stuck(w, fuel)
    ensures AllDone(w)
  {
    forall t: Tid | t < |w.s.pc|
      ensures w.s.pc[t].Asleep? || (w.s.pc[t].Idle? && w.left[t] == 0 && !Owns(w.s, t, 0))
      ensures !Owns(w.s, t, 0)
    {
      WhoCannotMove(w, t, fuel);
      assert Programmed(w.s.pc[t], Owns(w.s, t, 0), fuel);
    }
    assert MutexOk(w.s, 0);
    assert !SomeoneSleeps(w.s, 0);
    forall t: Tid | t < |w.s.pc| ensures w.s.pc[t].Idle? {
      if w.s.pc[t].Asleep? {
        assert Programmed(w.s.pc[t], Owns(w.s, t, 0), fuel);
        assert SleepsOn(w.s, t, 0);
      }
    }
  }

  /** How often thread `t` has been handed the mutex in the first `n` steps. */
  ghost function Taken(ws: seq<Work>, n: nat, t: Tid): nat
    requires n < |ws|
  {
    if n == 0 then 0
    else Taken(ws, n - 1, t) + if !Owns(ws[n - 1].s, t, 0) && Owns(ws[n].s, t, 0) then 1 else 0
  }

  /** Rounds of `t` in which it has not yet been handed the mutex. */
  function Untaken(w: Work, t: Tid): nat
    requires |w.left| == |w.s.pc| && t < |w.left|
  {
    w.left[t] + if Locking(w.s.pc[t]) then 1 else 0
  }

  lemma MoverTakes(w: Work, t: Tid, ch: Choice, fuel: nat)
    requires |w.s.mx| == 1 && Moves(w, t, ch, fuel) && Programmed(w.s.pc[t], Owns(w.s, t, 0), fuel)
    requires |Next(w.s, t, ch).pc| == |w.s.pc|
    ensures var w' := Advance(w, t, ch);
            Untaken(w, t) == Untaken(w', t) + if !Owns(w.s, t, 0) && Owns(w'.s, t, 0) then 1 else 0
  {
    if w.s.pc[t].Unlocking? {
      assert Next(w.s, t, ch) == UnlockStep(w.s, t, ch);
    } else if Locking(w.s.pc[t]) {
      assert Next(w.s, t, ch) == LockStep(w.s, t, ch);
    }
  }

  lemma TakenInStep(w: Work, u: Tid, ch: Choice, fuel: nat, t: Tid)
    requires WorkOk(w, fuel) && Moves(w, u, ch, fuel) && t < |w.s.pc| && WorkOk(Advance(w, u, ch), fuel)
    requires Evolves(w.s, Next(w.s, u, ch), u)
    ensures var w' := Advance(w, u, ch);
            Untaken(w, t) == Untaken(w', t) + if !Owns(w.s, t, 0) && Owns(w'.s, t, 0) then 1 else 0
  {
    var w' := Advance(w, u, ch);
    assert Programmed(w.s.pc[t], Owns(w.s, t, 0), fuel);
    if t == u {
      MoverTakes(w, t, ch, fuel);
    } else {
      OthersStayProgrammed(w.s, w'.s, u, t, fuel);
      assert Bystander(w.s.pc[t], w'.s.pc[t], w.s);
    }
  }

  lemma {:induction false} TakenSoFar(ws: seq<Work>, events: seq<Event>, fuel: nat, n: nat, t: Tid)
    requires WorkRun(ws, events, fuel) && WorkOk(ws[0], fuel) && n <= |events| && t < |ws[0].left|
    ensures |ws[n].s.pc| == |ws[n].left| == |ws[0].left|
    ensures Taken(ws, n, t) + Untaken(ws[n], t) == Untaken(ws[0], t)
  {
    if n > 0 {
      TakenSoFar(ws, events, fuel, n - 1, t);
      RunDescends(ws, events, fuel, n - 1);
      RunDescends(ws, events, fuel, n);
      assert WorkStepAt(ws, events, n - 1, fuel);
      StepEvolves(ws[n - 1].s, events[n - 1].t, events[n - 1].ch);
      TakenInStep(ws[n - 1], events[n - 1].t, events[n - 1].ch, fuel, t);
    }
  }

  /** Total completion: a schedule that cannot be continued has done all the work, and each thread has
      held the mutex once in each of its rounds. */
  lemma TotalCompletion(left: seq<nat>, ws: seq<Work>, events: seq<Event>, fuel: nat)
    requires WorkRun(ws, events, fuel) && ws[0] == Start(left) && Stuck(ws[|events|], fuel)
    ensures AllDone(ws[|events|])
    ensures forall t: Tid :: t < |left| ==> Taken(ws, |events|, t) == left[t]
  {
    StartOk(left, fuel);
    RunDescends(ws, events, fuel, |events|);
    StuckMeansDone(ws[|events|], fuel);
    forall t: Tid | t < |left| ensures Taken(ws, |events|, t) == left[t] {
      TakenSoFar(ws, events, fuel, |events|, t);
    }
  }
}

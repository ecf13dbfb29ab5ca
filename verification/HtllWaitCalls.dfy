/**
 Condition waits as whole calls: the number with which a wait goes to sleep is the one that it read in this
 call, so it sleeps exactly if nobody has signalled in between.
 */
module HtllWaitCalls {
  import opened LockWord
  import opened Options
  import opened HtllModel
  import opened HtllSafety
  import opened HtllRuns
  import opened HtllCalls
  import opened HtllSignals
  import opened HtllSignalCalls

  /** The number that a wait on its way to sleep has read, or `None` when it has not read it yet or does not
      need it any more. */
  function Number(p: Pc): Option<nat> {
    match p
    case Binding(at, _, _, ticket, _) => if at == ReadSeq then None else Some(ticket)
    case Unlocking(_, _, ToSleep(_, ticket, _)) => Some(ticket)
    case CondCall(_, _, ticket, _) => Some(ticket)
    case _ => None
  }

  predicate IsWait(op: Op, c: Cid, m: Mid) { op == OpWait(c, m) || op == OpTimedWait(c, m) }

  /** A step of the waiter itself keeps the number, reads it, or gives it up. */
  lemma WaiterKeepsNumber(s: State, t: Tid, ch: Choice, c: Cid, m: Mid, op: Op)
    requires Inv(s) && Enabled(s, t, ch) && IsWait(op, c, m) && InCall(s, t, op)
    ensures var p, s' := s.pc[t], Next(s, t, ch);
            && t < |s'.pc|
            && (Number(s'.pc[t]).Some? ==>
                  || Number(s'.pc[t]) == Number(p)
                  || (p.Binding? && p.stage == ReadSeq && p.c == c && HasCond(s, c) && Number(s'.pc[t]) == Some(s.cv[c].incs)))
  {
    if s.pc[t].Unlocking? {
      assert Next(s, t, ch) == UnlockStep(s, t, ch);
    } else if s.pc[t].Binding? || s.pc[t].CondCall? {
      assert Next(s, t, ch) == WaitStep(s, t, ch);
    } else if Locking(s.pc[t]) {
      assert Next(s, t, ch) == LockStep(s, t, ch);
    } else {
      assert ThreadOk(s, t) && CondOk(s, s.pc[t].c);
    }
  }

  lemma OthersKeepNumber(s: State, s': State, u: Tid, t: Tid)
    requires Evolves(s, s', u) && u != t && t < |s.pc|
    ensures Number(s'.pc[t]) == Number(s.pc[t])
  {
    assert Bystander(s.pc[t], s'.pc[t], s);
  }

  /** Step `r` is the read of the number in the wait that `t` called at step `a`. */
  ghost predicate Reads(states: seq<State>, events: seq<Event>, a: nat, r: nat, t: Tid, c: Cid)
    requires IsRun(states, events) && a < |events| && r < |events|
  {
    && a < r && events[r].t == t && t < |states[r].pc| && HasCond(states[r], c)
    && states[r].pc[t].Binding? && states[r].pc[t].stage == ReadSeq && states[r].pc[t].c == c
  }

  lemma NoNumberAtFirst(states: seq<State>, events: seq<Event>, a: nat, t: Tid, c: Cid, m: Mid, op: Op)
    requires FreshRun(states, events) && a < |events| && Calls(states, events, a, t, op) && IsWait(op, c, m)
    ensures t < |states[a + 1].pc| && Number(states[a + 1].pc[t]) == None
  {
    assert StepAt(states, events, a);
    assert states[a + 1] == CallStep(states[a], t, events[a].ch);
  }

  /** One step of the run, by whichever thread. */
  lemma NumberMovesOn(states: seq<State>, events: seq<Event>, a: nat, n: nat, t: Tid, c: Cid, m: Mid, op: Op)
    requires FreshRun(states, events) && a < n < |events| && Calls(states, events, a, t, op) && IsWait(op, c, m)
    requires Busily(states, a, n + 1, t) && t < |states[n + 1].pc| && Number(states[n + 1].pc[t]).Some?
    ensures t < |states[n].pc|
    ensures || Number(states[n + 1].pc[t]) == Number(states[n].pc[t])
            || (Reads(states, events, a, n, t, c) && Number(states[n + 1].pc[t]) == Some(states[n].cv[c].incs))
  {
    RunEvolves(states, events, n);
    if events[n].t == t {
      CallReturns(states, events, a, n, t, op);
      WaiterKeepsNumber(states[n], t, events[n].ch, c, m, op);
    } else {
      OthersKeepNumber(states[n], states[n + 1], events[n].t, t);
    }
  }

  /** The number of a wait is what `c->seq` was when this call read it. */
  lemma {:induction false} NumberIsRead(states: seq<State>, events: seq<Event>, a: nat, n: nat, t: Tid, c: Cid, m: Mid,
                                       op: Op) returns (r: nat)
    requires FreshRun(states, events) && a < n <= |events| && Calls(states, events, a, t, op) && IsWait(op, c, m)
    requires Busily(states, a, n, t) && t < |states[n].pc| && Number(states[n].pc[t]).Some?
    ensures r < n && Reads(states, events, a, r, t, c) && Number(states[n].pc[t]) == Some(states[r].cv[c].incs)
  {
    NoNumberAtFirst(states, events, a, t, c, m, op);
    NumberMovesOn(states, events, a, n - 1, t, c, m, op);
    r := n - 1;
    if Number(states[n].pc[t]) == Number(states[n - 1].pc[t]) {
      r := NumberIsRead(states, events, a, n - 1, t, c, m, op);
    }
  }

  /** A wait that has released its mutex sleeps if and only if the increments since it read the number, in
      this call, are a multiple of 2^32, none at all below that; unless it is timed and its time is over.
      Either way it does not hold the mutex then. */
  lemma WaitSleepsIffUnsignalled(states: seq<State>, events: seq<Event>, a: nat, n: nat, t: Tid, c: Cid, m: Mid, op: Op)
      returns (r: nat)
    requires FreshRun(states, events) && a < n < |events| && Calls(states, events, a, t, op) && IsWait(op, c, m)
    requires Busily(states, a, n, t) && events[n].t == t && t < |states[n].pc| && states[n].pc[t].CondCall?
    ensures r < n && Reads(states, events, a, r, t, c) && HasCond(states[n], c) && t < |states[n + 1].pc|
    ensures !Owns(states[n], t, m)
    ensures var passed := states[n].cv[c].incs - states[r].cv[c].incs;
            var over := op.OpTimedWait? && events[n].ch.late;
            states[n + 1].pc[t].CondAsleep? <==> !over && passed % UINT == 0
    ensures states[n + 1].pc[t].CondAsleep? || states[n + 1].pc[t].Remark?
  {
    CallReturns(states, events, a, n, t, op);
    r := NumberIsRead(states, events, a, n, t, c, m, op);
    RunInv(states, events, n);
    assert StepAt(states, events, n) && ThreadOk(states[n], t);
    SleepsIffUnchanged(states[n], t, events[n].ch);
  }

  // ----- and it does call the futex

  /** Has a wait come further than its call of the futex? */
  predicate PastFutex(p: Pc) { p.CondAsleep? || p.Remark? || p.WaitCall? || p.Asleep? }

  predicate PastOrBack(p: Pc) { PastFutex(p) || (p.Idle? && p != Idle(Inval)) }

  /** Does a wait that has called the futex know already that its time is over? */
  predicate KnowsItIsLate(p: Pc) {
    match p
    case Remark(_, k) => k == InLateWait
    case WaitCall(_, k) => k == InLateWait
    case Asleep(_, _, k) => k == InLateWait
    case _ => false
  }

  /** What one step of the waiter makes of its knowledge, from its call of the futex on. */
  predicate LateStep(p: Pc, late: bool, op: Op, p': Pc) {
    var known := if p.CondCall? then op.OpTimedWait? && late else KnowsItIsLate(p);
    if PastFutex(p') then KnowsItIsLate(p') <==> known
    else p' == Idle(if known || (op.OpTimedWait? && late) then TimedOut else Ok)
  }

  lemma RelockerKnows(s: State, t: Tid, ch: Choice, c: Cid, m: Mid, op: Op)
    requires IsWait(op, c, m) && InCall(s, t, op) && InRange(s, s.pc[t]) && Locking(s.pc[t])
    ensures var s' := LockStep(s, t, ch); t < |s'.pc| && LateStep(s.pc[t], ch.late, op, s'.pc[t])
  {
  }

  lemma SleeperKnows(s: State, t: Tid, ch: Choice, c: Cid, m: Mid, op: Op)
    requires Inv(s) && Enabled(s, t, ch) && IsWait(op, c, m) && InCall(s, t, op)
    requires s.pc[t].CondCall? || s.pc[t].CondAsleep?
    ensures t < |Next(s, t, ch).pc| && LateStep(s.pc[t], ch.late, op, Next(s, t, ch).pc[t])
  {
    assert ThreadOk(s, t) && CondOk(s, s.pc[t].c);
  }

  lemma EarlierIsNotPast(s: State, t: Tid, ch: Choice, c: Cid, m: Mid, op: Op)
    requires Enabled(s, t, ch) && IsWait(op, c, m) && InCall(s, t, op) && (s.pc[t].Binding? || s.pc[t].Unlocking?)
    ensures t < |Next(s, t, ch).pc| && !PastOrBack(Next(s, t, ch).pc[t])
  {
  }

  lemma BeforePastFutex(s: State, t: Tid, ch: Choice, c: Cid, m: Mid, op: Op)
    requires Inv(s) && Enabled(s, t, ch) && IsWait(op, c, m) && InCall(s, t, op)
    requires t < |Next(s, t, ch).pc| && PastOrBack(Next(s, t, ch).pc[t])
    ensures (s.pc[t].CondCall? && !Owns(s, t, m)) || PastFutex(s.pc[t])
    ensures LateStep(s.pc[t], ch.late, op, Next(s, t, ch).pc[t])
  {
    if Locking(s.pc[t]) {
      assert Next(s, t, ch) == LockStep(s, t, ch);
      RelockerKnows(s, t, ch, c, m, op);
    } else if s.pc[t].CondAsleep? || s.pc[t].CondCall? {
      SleeperKnows(s, t, ch, c, m, op);
    } else {
      EarlierIsNotPast(s, t, ch, c, m, op);
    }
  }

  lemma NotPastAtFirst(states: seq<State>, events: seq<Event>, a: nat, t: Tid, c: Cid, m: Mid, op: Op)
    requires FreshRun(states, events) && a < |events| && Calls(states, events, a, t, op) && IsWait(op, c, m)
    ensures t < |states[a + 1].pc| && !PastOrBack(states[a + 1].pc[t])
  {
    assert StepAt(states, events, a);
    assert states[a + 1] == CallStep(states[a], t, events[a].ch);
  }

  /** Step `j` is the call of FUTEX_WAIT on `c->seq`, made without the mutex. */
  ghost predicate CallsFutex(states: seq<State>, events: seq<Event>, j: nat, t: Tid, c: Cid, m: Mid)
    requires IsRun(states, events) && j < |events|
  {
    && events[j].t == t && t < |states[j].pc| && !Owns(states[j], t, m)
    && states[j].pc[t].CondCall? && states[j].pc[t].c == c
  }

  /** One step of the run, by whichever thread. */
  lemma WaitMovesPast(states: seq<State>, events: seq<Event>, a: nat, n: nat, t: Tid, c: Cid, m: Mid, op: Op)
    requires FreshRun(states, events) && a < n < |events| && Calls(states, events, a, t, op) && IsWait(op, c, m)
    requires Busily(states, a, n + 1, t) && t < |states[n + 1].pc| && PastOrBack(states[n + 1].pc[t])
    ensures t < |states[n].pc| && (PastFutex(states[n].pc[t]) || CallsFutex(states, events, n, t, c, m))
    ensures events[n].t == t ==> LateStep(states[n].pc[t], events[n].ch.late, op, states[n + 1].pc[t])
    ensures events[n].t != t ==> PastFutex(states[n + 1].pc[t]) && (KnowsItIsLate(states[n].pc[t]) <==> KnowsItIsLate(states[n + 1].pc[t]))
  {
    RunEvolves(states, events, n);
    CallReturns(states, events, a, n, t, op);
    if events[n].t == t {
      BeforePastFutex(states[n], t, events[n].ch, c, m, op);
    } else {
      assert Bystander(states[n].pc[t], states[n + 1].pc[t], states[n]);
    }
  }

  /** A wait that comes back, but for EINVAL, has released its mutex and called FUTEX_WAIT on `c->seq` on the
      way, or has found then that its time was over. */
  lemma {:induction false} WaitCallsFutex(states: seq<State>, events: seq<Event>, a: nat, n: nat, t: Tid, c: Cid, m: Mid,
                                         op: Op) returns (j: nat)
    requires FreshRun(states, events) && a < n <= |events| && Calls(states, events, a, t, op) && IsWait(op, c, m)
    requires Busily(states, a, n, t) && t < |states[n].pc| && PastOrBack(states[n].pc[t])
    ensures a < j < n && CallsFutex(states, events, j, t, c, m)
    ensures PastFutex(states[n].pc[t]) ==> (KnowsItIsLate(states[n].pc[t]) <==> op.OpTimedWait? && events[j].ch.late)
    ensures states[n].pc[t].Idle? ==>
              states[n].pc[t] == Idle(if op.OpTimedWait? && (events[j].ch.late || events[n - 1].ch.late) then TimedOut else Ok)
  {
    NotPastAtFirst(states, events, a, t, c, m, op);
    WaitMovesPast(states, events, a, n - 1, t, c, m, op);
    j := n - 1;
    if PastFutex(states[n - 1].pc[t]) {
      j := WaitCallsFutex(states, events, a, n - 1, t, c, m, op);
    }
  }

  /** A timed wait that does not fail with EINVAL returns ETIMEDOUT if and only if the clock has said that its
      time is over, before it called the futex or after; and it returns when it finds its mutex free. */
  lemma TimesOutIffLate(states: seq<State>, events: seq<Event>, a: nat, n: nat, t: Tid, c: Cid, m: Mid) returns (j: nat)
    requires FreshRun(states, events) && a < n < |events| && Calls(states, events, a, t, OpTimedWait(c, m))
    requires Busily(states, a, n + 1, t) && t < |states[n + 1].pc| && states[n + 1].pc[t].Idle?
    requires states[n + 1].pc[t] != Idle(Inval)
    ensures a < j <= n && CallsFutex(states, events, j, t, c, m)
    ensures states[n + 1].pc[t] == Idle(TimedOut) <==> events[j].ch.late || events[n].ch.late
    ensures events[n].t == t && Owns(states[n + 1], t, m) && HasMutex(states[n], m) && states[n].mx[m].owner == None
  {
    j := WaitCallsFutex(states, events, a, n + 1, t, c, m, OpTimedWait(c, m));
    CallReturns(states, events, a, n + 1, t, OpTimedWait(c, m));
    CallReturns(states, events, a, n, t, OpTimedWait(c, m));
    RunEvolves(states, events, n);
    if events[n].t == t { TakesFree(states[n], t, events[n].ch, c, m); }
  }

  lemma TakesFree(s: State, t: Tid, ch: Choice, c: Cid, m: Mid)
    requires Inv(s) && Enabled(s, t, ch) && InCall(s, t, OpTimedWait(c, m)) && t < |Next(s, t, ch).pc|
    requires Next(s, t, ch).pc[t].Idle? && Next(s, t, ch).pc[t] != Idle(Inval)
    ensures HasMutex(s, m) && s.mx[m].owner == None
  {
    assert ThreadOk(s, t);
    if s.pc[t].Remark? { assert MutexOk(s, m); }
  }
}

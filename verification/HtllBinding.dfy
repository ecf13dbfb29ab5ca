/**
 When a condition wait fails: exactly if the condition variable is bound to another mutex.  The binding
 outlives its waiters, which POSIX does not ask for, so a wait can fail although nobody waits.
 */
module HtllBinding {
  import opened LockWord
  import opened Options
  import opened HtllModel
  import opened HtllSafety
  import opened HtllRuns
  import opened HtllScenes

  /** `t` is in a wait on `c` with `m`: still finding out what `c` is bound to, or past that. */
  predicate WaitingOn(s: State, t: Tid, c: Cid, m: Mid) {
    && t < |s.pc| && WaitingWith(s.pc[t], m)
    && if s.pc[t].Binding? then s.pc[t].c == c else BoundTo(s, c, m)
  }

  /** `t` is back from a wait on `c` with `m`, with EINVAL exactly if `c` is bound to another mutex. */
  predicate BackFrom(s: State, t: Tid, c: Cid, m: Mid) {
    && t < |s.pc| && s.pc[t].Idle? && HasCond(s, c) && s.cv[c].m.Some?
    && (s.pc[t] == Idle(Inval) <==> s.cv[c].m != Some(m))
  }

  lemma WaiterMoves(s: State, t: Tid, ch: Choice, c: Cid, m: Mid)
    requires Inv(s) && Enabled(s, t, ch) && WaitingOn(s, t, c, m) && Evolves(s, Next(s, t, ch), t)
    ensures WaitingOn(Next(s, t, ch), t, c, m) || BackFrom(Next(s, t, ch), t, c, m)
  {
    WaitReturnsHolding(s, t, ch, m);
  }

  lemma OthersMove(s: State, u: Tid, ch: Choice, t: Tid, c: Cid, m: Mid)
    requires Inv(s) && Enabled(s, u, ch) && u != t && WaitingOn(s, t, c, m) && Evolves(s, Next(s, u, ch), u)
    ensures WaitingOn(Next(s, u, ch), t, c, m)
  {
    WaitSurvivesOthers(s, u, ch, t, m);
    assert Bystander(s.pc[t], Next(s, u, ch).pc[t], s);
  }

  /** Step `i` is the call of a wait or timed wait on `c` with `m`. */
  ghost predicate BeginsWait(states: seq<State>, events: seq<Event>, i: nat, t: Tid, c: Cid, m: Mid)
    requires IsRun(states, events) && i < |events|
  {
    && events[i].t == t && t < |states[i].pc| && states[i].pc[t].Idle?
    && events[i].ch.op in {OpWait(c, m), OpTimedWait(c, m)}
  }

  /** It is the first return from that call that leads to state `j`. */
  ghost predicate FirstBack(states: seq<State>, i: nat, j: nat, t: Tid)
    requires i < j < |states|
  {
    && t < |states[j].pc| && states[j].pc[t].Idle?
    && forall k :: i < k < j ==> t < |states[k].pc| && !states[k].pc[t].Idle?
  }

  lemma WaitBegins(states: seq<State>, events: seq<Event>, i: nat, t: Tid, c: Cid, m: Mid)
    requires FreshRun(states, events) && i < |events| && BeginsWait(states, events, i, t, c, m)
    ensures WaitingOn(states[i + 1], t, c, m)
  {
    RunEvolves(states, events, i);
  }

  lemma {:induction false} WaitGoesOn(states: seq<State>, events: seq<Event>, i: nat, j: nat, t: Tid, c: Cid, m: Mid)
    requires FreshRun(states, events) && i < j <= |events| && BeginsWait(states, events, i, t, c, m)
    requires forall k :: i < k < j ==> t < |states[k].pc| && !states[k].pc[t].Idle?
    ensures WaitingOn(states[j], t, c, m) || BackFrom(states[j], t, c, m)
  {
    if j == i + 1 {
      WaitBegins(states, events, i, t, c, m);
    } else {
      WaitGoesOn(states, events, i, j - 1, t, c, m);
      RunEvolves(states, events, j - 1);
      var u, ch := events[j - 1].t, events[j - 1].ch;
      if u == t { WaiterMoves(states[j - 1], t, ch, c, m); } else { OthersMove(states[j - 1], u, ch, t, c, m); }
    }
  }

  /** A wait or timed wait comes back with EINVAL if and only if the condition variable is bound to a
      mutex other than its own by then; in either case it is bound. */
  lemma WaitFailsIffBoundElsewhere(states: seq<State>, events: seq<Event>, i: nat, j: nat, t: Tid, c: Cid, m: Mid)
    requires FreshRun(states, events) && i < j <= |events| && BeginsWait(states, events, i, t, c, m)
    requires FirstBack(states, i, j, t)
    ensures HasCond(states[j], c) && states[j].cv[c].m.Some?
    ensures states[j].pc[t] == Idle(Inval) <==> states[j].cv[c].m != Some(m)
  {
    WaitGoesOn(states, events, i, j, t, c, m);
  }

  /** So a wait that finds the condition variable bound fails if and only if that is to another mutex:
      the caller can tell in advance, and no race decides. */
  lemma BoundWaitFailsIff(states: seq<State>, events: seq<Event>, i: nat, j: nat, t: Tid, c: Cid, m: Mid, bound: Mid)
    requires FreshRun(states, events) && i < j <= |events| && BeginsWait(states, events, i, t, c, m)
    requires FirstBack(states, i, j, t) && BoundTo(states[i], c, bound)
    ensures states[j].pc[t] == Idle(Inval) <==> bound != m
  {
    WaitFailsIffBoundElsewhere(states, events, i, j, t, c, m);
    BindingIsForever(states, events, i, j, c);
  }

  // ----- a wait that fails although nobody waits

  lemma ThenPair(states: seq<State>, events: seq<Event>, t: Tid, ch: Choice, s: State)
      returns (states': seq<State>, events': seq<Event>)
    requires FreshRun(states, events) && Enabled(states[|events|], t, ch) && Next(states[|events|], t, ch) == s
    ensures FreshRun(states', events') && states'[|events'|] == s
    ensures states <= states' && events <= events' && |events'| == |events| + 1 && events'[|events|] == Event(t, ch)
  {
    Extend(states, events, t, ch);
    states', events' := states + [s], events + [Event(t, ch)];
  }

  const NONE := Choice(OpSignal(0), 0, 0, 0, 0, true)

  /** Two mutexes, a condition variable and two threads. */
  function Pair(x0: Mutex, x1: Mutex, c: Cond, p0: Pc, p1: Pc): State { State([x0, x1], [c], [p0, p1]) }

  function X(w: Word, owner: Option<Tid>): Mutex { FreshMutex().(w := w, owner := owner) }

  const UNBOUND := Cond(None, 0, [])
  const BOUND := Cond(Some(0), 0, [])

  /** Thread 0 takes mutex 0. */
  lemma FirstTakes() returns (states: seq<State>, events: seq<Event>)
    ensures FreshRun(states, events)
    ensures states[|events|] == Pair(X(HELD, Some(0)), FreshMutex(), UNBOUND, Idle(Ok), Idle(Ok))
  {
    states, events := [Init(2, 1, 2)], [];
    var f, x, p := FreshMutex(), X(HELD, Some(0)), Idle(Ok);
    assert states[0] == Pair(f, f, UNBOUND, p, p);
    states, events := ThenPair(states, events, 0, Lock(0), Pair(f, f, UNBOUND, Spin(0, false, 1), p));
    states, events := ThenPair(states, events, 0, NONE, Pair(x, f, UNBOUND, p, p));
  }

  /** It begins to wait with it. */
  lemma FirstWaits() returns (states: seq<State>, events: seq<Event>)
    ensures FreshRun(states, events)
    ensures states[|events|] ==
            Pair(X(HELD, Some(0)), FreshMutex(), UNBOUND, Binding(Bind, 0, 0, 0, InTimedWait), Idle(Ok))
  {
    states, events := FirstTakes();
    var f, x, p := FreshMutex(), X(HELD, Some(0)), Idle(Ok);
    states, events := ThenPair(states, events, 0, Call(OpTimedWait(0, 0)),
                               Pair(x, f, UNBOUND, Binding(ReadSeq, 0, 0, 0, InTimedWait), p));
    states, events := ThenPair(states, events, 0, NONE, Pair(x, f, UNBOUND, Binding(Compare, 0, 0, 0, InTimedWait), p));
    states, events := ThenPair(states, events, 0, NONE, Pair(x, f, UNBOUND, Binding(IsSet, 0, 0, 0, InTimedWait), p));
    states, events := ThenPair(states, events, 0, NONE, Pair(x, f, UNBOUND, Binding(Bind, 0, 0, 0, InTimedWait), p));
  }

  /** It binds the condition variable and releases the mutex. */
  lemma FirstBinds() returns (states: seq<State>, events: seq<Event>)
    ensures FreshRun(states, events)
    ensures states[|events|] == Pair(X(FREE, None), FreshMutex(), BOUND, CondCall(0, 0, 0, InTimedWait), Idle(Ok))
  {
    states, events := FirstWaits();
    var f, x, p, next := FreshMutex(), X(HELD, Some(0)), Idle(Ok), ToSleep(0, 0, InTimedWait);
    states, events := ThenPair(states, events, 0, NONE, Pair(x, f, BOUND, Binding(Recheck, 0, 0, 0, InTimedWait), p));
    states, events := ThenPair(states, events, 0, NONE, Pair(x, f, BOUND, Unlocking(Look, 0, next), p));
    states, events := ThenPair(states, events, 0, NONE, Pair(x, f, BOUND, Unlocking(Cas, 0, next), p));
    states, events := ThenPair(states, events, 0, NONE,
                               Pair(X(FREE, None), f, BOUND, CondCall(0, 0, 0, InTimedWait), p));
  }

  /** Its time is over, and it comes back; then thread 1 takes mutex 1. */
  lemma FirstIsBack() returns (states: seq<State>, events: seq<Event>)
    ensures FreshRun(states, events)
    ensures states[|events|] == Pair(X(MARKED, Some(0)), X(HELD, Some(1)), BOUND, Idle(TimedOut), Idle(Ok))
  {
    states, events := FirstBinds();
    var f, x, p := FreshMutex(), X(MARKED, Some(0)), Idle(TimedOut);
    states, events := ThenPair(states, events, 0, NONE,
                               Pair(X(FREE, None), f, BOUND, Remark(0, InLateWait), Idle(Ok)));
    states, events := ThenPair(states, events, 0, NONE, Pair(x, f, BOUND, p, Idle(Ok)));
    states, events := ThenPair(states, events, 1, Lock(1), Pair(x, f, BOUND, p, Spin(1, false, 1)));
    states, events := ThenPair(states, events, 1, NONE, Pair(x, X(HELD, Some(1)), BOUND, p, Idle(Ok)));
  }

  /** A run in which thread 1 calls a wait at step `n`, when every thread is outside any call and nobody is
      queued, and comes back with EINVAL: the condition variable is still bound to the mutex of a waiter
      that has returned. */
  lemma BindingOutlivesWaiters() returns (states: seq<State>, events: seq<Event>, n: nat)
    ensures FreshRun(states, events) && n < |events| && BeginsWait(states, events, n, 1, 0, 1)
    ensures HasCond(states[n], 0) && states[n].cv[0].q == [] && forall t: Tid :: t < |states[n].pc| ==> states[n].pc[t].Idle?
    ensures FirstBack(states, n, |events|, 1) && states[|events|].pc[1] == Idle(Inval)
  {
    states, events := FirstIsBack();
    n := |events|;
    var x, y, p := X(MARKED, Some(0)), X(HELD, Some(1)), Idle(TimedOut);
    states, events := ThenPair(states, events, 1, Call(OpWait(0, 1)), Pair(x, y, BOUND, p, Binding(ReadSeq, 0, 1, 0, InWait)));
    states, events := ThenPair(states, events, 1, NONE, Pair(x, y, BOUND, p, Binding(Compare, 0, 1, 0, InWait)));
    states, events := ThenPair(states, events, 1, NONE, Pair(x, y, BOUND, p, Binding(IsSet, 0, 1, 0, InWait)));
    states, events := ThenPair(states, events, 1, NONE, Pair(x, y, BOUND, p, Idle(Inval)));
  }
}

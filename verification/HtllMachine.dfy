/**
 The HTLL step system executed in place: arrays of mutexes, condition variables and program points that
 each access updates where it stands.  `Step` is proved against the step function `HtllModel.Next`, so
 every guarantee about runs holds of what `Run` does, whatever the scheduler proposes.
 */
module HtllMachine {
  import opened LockWord
  import opened Options
  import opened HtllModel
  import opened HtllSafety
  import opened HtllRuns

  /** The state after the proposed steps, one after the other, without those that are not possible. */
  ghost function Follow(s: State, proposed: seq<Event>): State {
    if proposed == [] then s
    else
      var n := |proposed| - 1;
      var s' := Follow(s, proposed[..n]);
      if Enabled(s', proposed[n].t, proposed[n].ch) then Next(s', proposed[n].t, proposed[n].ch) else s'
  }

  class Machine {
    const mx: array<Mutex>
    const cv: array<Cond>
    const pc: array<Pc>

    function View(): State
      reads mx, cv, pc
    {
      State(mx[..], cv[..], pc[..])
    }

    constructor (mutexes: nat, conds: nat, threads: nat)
      ensures fresh(mx) && fresh(cv) && fresh(pc)
      ensures View() == Init(mutexes, conds, threads)
    {
      mx := new Mutex[mutexes](_ => FreshMutex());
      cv := new Cond[conds](_ => FreshCond());
      pc := new Pc[threads](_ => Idle(Ok));
    }

    /** The 8-bit exchange of `locked` with 1. */
    method Swap8(t: Tid, m: Mid, taken: Pc, refused: Pc)
      requires t < pc.Length && m < mx.Length
      modifies mx, pc
      ensures View() == HtllModel.Swap8(old(View()), t, m, taken, refused)
    {
      var was := mx[m].w.locked;
      mx[m] := mx[m].(w := mx[m].w.(locked := LOCKED));
      if was == UNLOCKED {
        mx[m] := mx[m].(owner := Some(t));
        pc[t] := taken;
      } else {
        pc[t] := refused;
      }
    }

    /** The 32-bit exchange of the word with 257. */
    method Swap32(t: Tid, m: Mid, taken: Pc, refused: Pc)
      requires t < pc.Length && m < mx.Length
      modifies mx, pc
      ensures View() == HtllModel.Swap32(old(View()), t, m, taken, refused)
    {
      var was := mx[m].w.locked;
      mx[m] := mx[m].(w := FromU(LOCKED_AND_CONTENDED));
      if was % 2 == 0 {
        mx[m] := mx[m].(owner := Some(t));
        pc[t] := taken;
      } else {
        pc[t] := refused;
      }
    }

    method LockAccess(t: Tid, ch: Choice)
      requires t < pc.Length && InRange(View(), pc[t])
      modifies mx, pc
      ensures View() == LockStep(old(View()), t, ch)
    {
      match pc[t]
      case Spin(m, inSegment, fuel) =>
        Swap8(t, m, Idle(Ok), if fuel == 0 then Mark(m, inSegment) else Spin(m, inSegment, fuel - 1));
      case Mark(m, inSegment) => Swap32(t, m, Idle(Ok), if inSegment then NapCall(m) else Remark(m, InLock));
      case NapCall(m) => pc[t] := if mx[m].w.U() == LOCKED_AND_CONTENDED then Napping(m) else NapDone(m);
      case Napping(m) => pc[t] := NapDone(m);
      case NapDone(m) => pc[t] := Spin(m, true, ch.fuel + 1);
      case Remark(m, k) =>
        Swap32(t, m, Idle(CodeOf(k, ch.late)), WaitCall(m, k));
      case WaitCall(m, k) => pc[t] := if mx[m].w.U() == LOCKED_AND_CONTENDED then Asleep(m, m, k) else Remark(m, k);
      case Asleep(_, m, k) => pc[t] := Remark(m, k);
      case TryOnce(m) => Swap8(t, m, Idle(Ok), Idle(Busy));
      case _ =>
    }

    method UnlockAccess(t: Tid, ch: Choice)
      requires t < pc.Length && InRange(View(), pc[t]) && pc[t].Unlocking?
      modifies mx, pc
      ensures View() == UnlockStep(old(View()), t, ch)
    {
      var Unlocking(at, m, next) := pc[t];
      var stage := NextStage(mx[m], at);
      match at {
        case Cas =>
          if mx[m].w.U() == 1 {
            mx[m] := mx[m].(w := FromU(0), owner := None);
          }
        case Store(v) =>
          mx[m] := mx[m].(cntUnlock := (v + 1) % UINT, slow := mx[m].slow + 1);
        case Adjust =>
          if ch.wakes0 > WAKE_MAX_THRESHOLD {
            mx[m] := mx[m].(ticks := (mx[m].ticks + INCREASE_UNIT) % UINT);
          } else if ch.wakes1 < WAKE_MIN_THRESHOLD {
            mx[m] := mx[m].(ticks := (mx[m].ticks - DECREASE_UNIT) % UINT);
          }
          mx[m] := mx[m].(adjusts := mx[m].adjusts + 1);
        case Release =>
          mx[m] := mx[m].(w := mx[m].w.(locked := UNLOCKED), owner := None);
        case Clear =>
          mx[m] := mx[m].(w := mx[m].w.(contended := UNCONTENDED));
        case Wake =>
          if SleepsOn(View(), ch.pick, m) {
            pc[ch.pick] := Woken(pc[ch.pick]);
          }
        case _ =>
      }
      pc[t] := match stage case None => AfterUnlock(m, next) case Some(n) => Unlocking(n, m, next);
    }

    method WaitAccess(t: Tid, ch: Choice)
      requires t < pc.Length && InRange(View(), pc[t]) && (pc[t].Binding? || pc[t].CondCall?)
      modifies cv, pc
      ensures View() == WaitStep(old(View()), t, ch)
    {
      match pc[t] {
        case Binding(at, c, m, ticket, k) =>
          var unlock := Unlocking(Look, m, ToSleep(c, ticket, k));
          match at {
            case ReadSeq => pc[t] := Binding(Compare, c, m, cv[c].incs, k);
            case Compare => pc[t] := if cv[c].m != Some(m) then Binding(IsSet, c, m, ticket, k) else unlock;
            case IsSet => pc[t] := if cv[c].m.Some? then Idle(Inval) else Binding(Bind, c, m, ticket, k);
            case Bind =>
              if cv[c].m.None? {
                cv[c] := cv[c].(m := Some(m));
              }
              pc[t] := Binding(Recheck, c, m, ticket, k);
            case Recheck => pc[t] := if cv[c].m != Some(m) then Idle(Inval) else unlock;
          }
        case CondCall(c, m, ticket, k) =>
          if k.InTimedWait? && ch.late {
            pc[t] := Remark(m, InLateWait);
          } else if cv[c].incs % UINT != ticket % UINT {
            pc[t] := Remark(m, k);
          } else {
            cv[c] := cv[c].(q := cv[c].q + [t]);
            pc[t] := CondAsleep(c, m, ticket, k);
          }
      }
    }

    /** The kernel takes the waiter at position `i` off the queue of `c->seq`. */
    method DequeueAt(c: Cid, i: nat)
      requires c < cv.Length && i < |cv[c].q|
      modifies cv, pc
      ensures View() == Dequeue(old(View()), c, i)
    {
      var w := cv[c].q[i];
      cv[c] := cv[c].(q := RemoveAt(cv[c].q, i));
      if w < pc.Length {
        pc[w] := Woken(pc[w]);
      }
    }

    /** `FUTEX_REQUEUE`: one waiter is let go, all others are moved to the futex of mutex `m`. */
    method RequeueAll(c: Cid, m: Mid, i: nat)
      requires c < cv.Length && i < |cv[c].q|
      modifies cv, pc
      ensures View() == Requeue(old(View()), c, m, i)
    {
      var q := cv[c].q;
      for z := 0 to pc.Length
        invariant cv[..] == old(cv[..])
        invariant forall j :: 0 <= j < z ==> pc[j] == Requeued(old(pc[j]), j, q, q[i], m)
        invariant forall j :: z <= j < pc.Length ==> pc[j] == old(pc[j])
      {
        pc[z] := Requeued(pc[z], z, q, q[i], m);
      }
      cv[c] := cv[c].(q := []);
    }

    method SignalAccess(t: Tid, ch: Choice)
      requires Enabled(View(), t, ch) && Signalling(pc[t])
      modifies cv, pc
      ensures View() == SignalStep(old(View()), t, ch)
    {
      match pc[t]
      case SignalInc(c) =>
        cv[c] := cv[c].(incs := cv[c].incs + 1);
        pc[t] := SignalWake(c);
      case SignalWake(c) =>
        if cv[c].q != [] {
          DequeueAt(c, ch.pick);
        }
        pc[t] := Idle(Ok);
      case BroadcastRead(c) =>
        pc[t] := if cv[c].m.None? then Idle(Ok) else BroadcastInc(c, cv[c].m.value);
      case BroadcastInc(c, m) =>
        cv[c] := cv[c].(incs := cv[c].incs + 1);
        pc[t] := BroadcastRequeue(c, m);
      case BroadcastRequeue(c, m) =>
        if cv[c].q != [] {
          RequeueAll(c, m, ch.pick);
        }
        pc[t] := Idle(Ok);
      case _ =>
    }

    method BeginCall(t: Tid, op: Op, fuel: nat)
      requires t < pc.Length && CallAllowed(View(), t, op)
      modifies pc
      ensures forall ch: Choice :: ch.op == op && ch.fuel == fuel ==> View() == CallStep(old(View()), t, ch)
    {
      match op
      case OpLock(m, inSegment) => pc[t] := Spin(m, inSegment, fuel + 1);
      case OpTrylock(m) => pc[t] := TryOnce(m);
      case OpUnlock(m) => pc[t] := Unlocking(Look, m, ToCaller);
      case OpWait(c, m) => pc[t] := Binding(ReadSeq, c, m, 0, InWait);
      case OpTimedWait(c, m) => pc[t] := Binding(ReadSeq, c, m, 0, InTimedWait);
      case OpSignal(c) => pc[t] := SignalInc(c);
      case OpBroadcast(c) => pc[t] := BroadcastRead(c);
    }

    /** One access of thread `t`, in place. */
    method Step(t: Tid, ch: Choice)
      requires Enabled(View(), t, ch)
      modifies mx, cv, pc
      ensures View() == Next(old(View()), t, ch)
    {
      if pc[t].Idle? {
        BeginCall(t, ch.op, ch.fuel);
      } else if pc[t].Unlocking? {
        UnlockAccess(t, ch);
      } else if pc[t].Binding? || pc[t].CondCall? {
        WaitAccess(t, ch);
      } else if pc[t].CondAsleep? {
        DequeueAt(pc[t].c, ch.pick);
      } else if pc[t].SignalInc? || pc[t].SignalWake? || pc[t].BroadcastRead? || pc[t].BroadcastInc?
                || pc[t].BroadcastRequeue? {
        SignalAccess(t, ch);
      } else {
        LockAccess(t, ch);
      }
    }

    /** Does anyone sleep on the futex of mutex `m`? */
    method AnyoneSleeps(m: Mid) returns (b: bool)
      ensures b <==> exists t: Tid :: SleepsOn(View(), t, m)
    {
      for t := 0 to pc.Length
        invariant forall t': Tid :: t' < t ==> !SleepsOn(View(), t', m)
      {
        if SleepsOn(View(), t, m) {
          return true;
        }
      }
      return false;
    }

    /** May the scheduler let `t` move with choice `ch`? */
    method MayMove(t: Tid, ch: Choice) returns (b: bool)
      requires t < pc.Length ==> InRange(View(), pc[t])
      ensures b <==> Enabled(View(), t, ch)
    {
      if t >= pc.Length {
        return false;
      }
      match pc[t]
      case Idle(_) => b := CallAllowed(View(), t, ch.op);
      case Unlocking(at, m, _) =>
        var someone := AnyoneSleeps(m);
        b := !at.Wake? || SleepsOn(View(), ch.pick, m) || !someone;
      case SignalWake(c) => b := cv[c].q == [] || ch.pick < |cv[c].q|;
      case BroadcastRequeue(c, _) => b := cv[c].q == [] || ch.pick < |cv[c].q|;
      case CondAsleep(c, _, _, _) => b := ch.pick < |cv[c].q| && cv[c].q[ch.pick] == t;
      case _ => b := true;
    }

    /** Execute what the scheduler proposes, skipping what is not possible.  The machine passes through
        the states of a run, so it always satisfies the invariant. */
    method Run(proposed: seq<Event>) returns (ghost states: seq<State>, ghost events: seq<Event>)
      requires StartsFresh(View())
      modifies mx, cv, pc
      ensures FreshRun(states, events) && states[0] == old(View()) && View() == states[|events|]
      ensures Inv(View()) && View() == Follow(old(View()), proposed)
    {
      states, events := [View()], [];
      for i := 0 to |proposed|
        invariant FreshRun(states, events) && states[0] == old(View()) && View() == states[|events|]
        invariant View() == Follow(old(View()), proposed[..i])
      {
        assert proposed[..i + 1][..i] == proposed[..i];
        RunInv(states, events, |events|);
        var e := proposed[i];
        assert e.t < pc.Length ==> ThreadOk(View(), e.t);
        var go := MayMove(e.t, e.ch);
        if go {
          Extend(states, events, e.t, e.ch);
          Step(e.t, e.ch);
          states, events := states + [View()], events + [e];
        }
      }
      assert proposed[..|proposed|] == proposed;
      RunInv(states, events, |events|);
    }
  }
}

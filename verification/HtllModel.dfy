/**
 The HTLL futex mutex and its condition variable as one step system: any number of
 mutexes, condition variables and threads, one atomic step per access to shared memory,
 sequentially consistent.  `Next(s, t, ch)` is the step that thread `t` takes from `s`;
 `ch` holds what the program text does not determine: which call an idle thread makes,
 how often a spin loop polls, whom the kernel wakes, what a racy or clock read returns.
 A step of a sleeping thread is its timeout, a signal, or a spurious return.
 */
module HtllModel {
  import opened LockWord
  import opened Options

  type Tid = nat
  type Mid = nat
  type Cid = nat

  const SPIN_TRIES_LOCK := 8192
  const ADJUST_PERIOD := 2048
  const WAKE_MAX_THRESHOLD := 32
  const WAKE_MIN_THRESHOLD := 16
  const INCREASE_UNIT := 512
  const DECREASE_UNIT := 256
  const UINT := 0x1_0000_0000

  /** `owner`, `slow` and `adjusts` are history: who was last handed the mutex and has not released
      it, how many unlocks took the slow path, how often the spin budget was adjusted. */
  datatype Mutex = Mutex(w: Word, ticks: int, cntUnlock: int, owner: Option<Tid>, slow: nat, adjusts: nat)

  /** `c->seq` is `incs` modulo 2^32; `q` is the kernel's queue of the futex `c->seq`, oldest first. */
  datatype Cond = Cond(m: Option<Mid>, incs: nat, q: seq<Tid>)

  datatype Code = Ok | Busy | Inval | TimedOut

  /** Who sleeps and re-marks the word: `htll_mutex_lock` outside a segment, or a condition wait; a timed one
      is late if its time was over before it called the futex (262-265). */
  datatype Kind = InLock | InWait | InTimedWait | InLateWait

  /** What a thread does after an unlock: return, or sleep on `c->seq` with the number it read. */
  datatype After = ToCaller | ToSleep(c: Cid, ticket: nat, k: Kind)

  datatype UStage =
    | Look              // 110: read u
    | Cas               // 110: compare-and-swap 1 -> 0
    | Load              // 114: load cnt_unlock
    | Store(v: int)     // 114: store v + 1
    | Test              // 115
    | Adjust            // 116
    | Release           // 120
    | Peek1             // 122
    | Peek2             // 128
    | Clear             // 133
    | Wake              // 134-135

  datatype WStage =
    | ReadSeq           // 205, 235
    | Compare           // 207, 237
    | IsSet             // 208, 238
    | Bind              // 212, 242
    | Recheck           // 213, 243

  datatype Pc =
    | Idle(code: Code)
    | Spin(m: Mid, inSegment: bool, fuel: nat)      // 67, 71-73
    | Mark(m: Mid, inSegment: bool)                 // 76
    | NapCall(m: Mid)                               // 82: FUTEX_WAIT with a timeout, inside a segment
    | Napping(m: Mid)
    | NapDone(m: Mid)                               // 86-87
    | Remark(m: Mid, k: Kind)                       // 89, 221, 283
    | WaitCall(m: Mid, k: Kind)                     // 90, 222, 284: FUTEX_WAIT
    | Asleep(addr: Mid, m: Mid, k: Kind)            // queued on mutex `addr`; will re-acquire `m`
    | TryOnce(m: Mid)                               // 140
    | Unlocking(at: UStage, m: Mid, next: After)
    | Binding(stage: WStage, c: Cid, m: Mid, ticket: nat, k: Kind)
    | CondCall(c: Cid, m: Mid, ticket: nat, k: Kind)    // 219, 268: FUTEX_WAIT on c->seq
    | CondAsleep(c: Cid, m: Mid, ticket: nat, k: Kind)
    | SignalInc(c: Cid)                             // 179
    | SignalWake(c: Cid)                            // 182
    | BroadcastRead(c: Cid)                         // 187-191
    | BroadcastInc(c: Cid, m: Mid)                  // 194
    | BroadcastRequeue(c: Cid, m: Mid)              // 197

  datatype State = State(mx: seq<Mutex>, cv: seq<Cond>, pc: seq<Pc>)

  datatype Op =
    | OpLock(m: Mid, inSegment: bool)
    | OpTrylock(m: Mid)
    | OpUnlock(m: Mid)
    | OpWait(c: Cid, m: Mid)
    | OpTimedWait(c: Cid, m: Mid)
    | OpSignal(c: Cid)
    | OpBroadcast(c: Cid)

  datatype Choice = Choice(op: Op, fuel: nat, pick: nat, wakes0: nat, wakes1: nat, late: bool)

  function FreshMutex(): Mutex { Mutex(FromU(0), SPIN_TRIES_LOCK, 0, None, 0, 0) }

  function FreshCond(): Cond { Cond(None, 0, []) }

  function Init(mutexes: nat, conds: nat, threads: nat): State {
    State(seq(mutexes, _ => FreshMutex()), seq(conds, _ => FreshCond()), seq(threads, _ => Idle(Ok)))
  }

  predicate HasMutex(s: State, m: Mid) { m < |s.mx| }

  predicate HasCond(s: State, c: Cid) { c < |s.cv| }

  /** Every address that a thread works on exists. */
  predicate InRange(s: State, p: Pc) {
    match p
    case Idle(_) => true
    case Spin(m, _, _) => HasMutex(s, m)
    case Mark(m, _) => HasMutex(s, m)
    case NapCall(m) => HasMutex(s, m)
    case Napping(m) => HasMutex(s, m)
    case NapDone(m) => HasMutex(s, m)
    case Remark(m, _) => HasMutex(s, m)
    case WaitCall(m, _) => HasMutex(s, m)
    case Asleep(a, m, _) => HasMutex(s, a) && HasMutex(s, m)
    case TryOnce(m) => HasMutex(s, m)
    case Unlocking(_, m, next) => HasMutex(s, m) && (next.ToSleep? ==> HasCond(s, next.c))
    case Binding(_, c, m, _, _) => HasMutex(s, m) && HasCond(s, c)
    case CondCall(c, m, _, _) => HasMutex(s, m) && HasCond(s, c)
    case CondAsleep(c, m, _, _) => HasMutex(s, m) && HasCond(s, c)
    case SignalInc(c) => HasCond(s, c)
    case SignalWake(c) => HasCond(s, c)
    case BroadcastRead(c) => HasCond(s, c)
    case BroadcastInc(c, m) => HasMutex(s, m) && HasCond(s, c)
    case BroadcastRequeue(c, m) => HasMutex(s, m) && HasCond(s, c)
  }

  /** The kernel's queue of the mutex futex: threads asleep at address `m`, in no particular order. */
  predicate SleepsOn(s: State, t: Tid, m: Mid) {
    t < |s.pc| && ((s.pc[t].Asleep? && s.pc[t].addr == m) || s.pc[t] == Napping(m))
  }

  predicate Owns(s: State, t: Tid, m: Mid) { HasMutex(s, m) && s.mx[m].owner == Some(t) }

  /** What callers owe: unlock and wait are called by the owner.  What the kernel owes: a wake takes
      a sleeper when there is one. */
  ghost predicate Enabled(s: State, t: Tid, ch: Choice) {
    && t < |s.pc|
    && InRange(s, s.pc[t])
    && match s.pc[t]
       case Idle(_) => CallAllowed(s, t, ch.op)
       case Unlocking(Wake, m, _) => SleepsOn(s, ch.pick, m) || forall t' :: !SleepsOn(s, t', m)
       case SignalWake(c) => s.cv[c].q == [] || ch.pick < |s.cv[c].q|
       case BroadcastRequeue(c, _) => s.cv[c].q == [] || ch.pick < |s.cv[c].q|
       case CondAsleep(c, _, _, _) => ch.pick < |s.cv[c].q| && s.cv[c].q[ch.pick] == t
       case _ => true
  }

  predicate CallAllowed(s: State, t: Tid, op: Op) {
    match op
    case OpLock(m, _) => HasMutex(s, m)
    case OpTrylock(m) => HasMutex(s, m)
    case OpUnlock(m) => Owns(s, t, m)
    case OpWait(c, m) => HasCond(s, c) && Owns(s, t, m)
    case OpTimedWait(c, m) => HasCond(s, c) && Owns(s, t, m)
    case OpSignal(c) => HasCond(s, c)
    case OpBroadcast(c) => HasCond(s, c)
  }

  // ----- effects

  function Goto(s: State, t: Tid, p: Pc): State
    requires t < |s.pc|
  {
    s.(pc := s.pc[t := p])
  }

  function SetMutex(s: State, m: Mid, x: Mutex): State
    requires HasMutex(s, m)
  {
    s.(mx := s.mx[m := x])
  }

  function SetCond(s: State, c: Cid, x: Cond): State
    requires HasCond(s, c)
  {
    s.(cv := s.cv[c := x])
  }

  /** `htll_swap_uint8(&m->l.b.locked, LOCKED)`, taken as an acquisition when the byte was 0. */
  function Swap8(s: State, t: Tid, m: Mid, taken: Pc, refused: Pc): State
    requires t < |s.pc| && HasMutex(s, m)
  {
    var x := s.mx[m];
    var x' := x.(w := x.w.(locked := LOCKED));
    if x.w.locked == UNLOCKED
    then Goto(SetMutex(s, m, x'.(owner := Some(t))), t, taken)
    else Goto(SetMutex(s, m, x'), t, refused)
  }

  /** `htll_swap_uint32(&m->l.u, 257)`, taken as an acquisition when the low bit was 0. */
  function Swap32(s: State, t: Tid, m: Mid, taken: Pc, refused: Pc): State
    requires t < |s.pc| && HasMutex(s, m)
  {
    var x := s.mx[m];
    var x' := x.(w := FromU(LOCKED_AND_CONTENDED));
    if x.w.locked % 2 == 0
    then Goto(SetMutex(s, m, x'.(owner := Some(t))), t, taken)
    else Goto(SetMutex(s, m, x'), t, refused)
  }

  /** `FUTEX_WAIT` on the lock word with expected value 257. */
  function FutexWait(s: State, t: Tid, m: Mid, asleep: Pc, awake: Pc): State
    requires t < |s.pc| && HasMutex(s, m)
  {
    Goto(s, t, if s.mx[m].w.U() == LOCKED_AND_CONTENDED then asleep else awake)
  }

  /** Where a sleeper continues once the kernel lets it go. */
  function Woken(p: Pc): Pc {
    match p
    case Asleep(_, m, k) => Remark(m, k)
    case Napping(m) => NapDone(m)
    case CondAsleep(_, m, _, k) => Remark(m, k)
    case _ => p
  }

  function RemoveAt(q: seq<Tid>, i: nat): seq<Tid>
    requires i < |q|
  {
    q[..i] + q[i + 1..]
  }

  /** The kernel dequeues `w` from the futex `c->seq`, at position `i`. */
  function Dequeue(s: State, c: Cid, i: nat): State
    requires HasCond(s, c) && i < |s.cv[c].q|
  {
    var w := s.cv[c].q[i];
    var s' := SetCond(s, c, s.cv[c].(q := RemoveAt(s.cv[c].q, i)));
    if w < |s.pc| then Goto(s', w, Woken(s.pc[w])) else s'
  }

  /** `FUTEX_REQUEUE`: wake the waiter at position `i`, move all others to the futex of mutex `m`. */
  function Requeue(s: State, c: Cid, m: Mid, i: nat): State
    requires HasCond(s, c) && i < |s.cv[c].q|
  {
    var q := s.cv[c].q;
    var moved := seq(|s.pc|, t requires 0 <= t < |s.pc| => Requeued(s.pc[t], t, q, q[i], m));
    SetCond(s, c, s.cv[c].(q := [])).(pc := moved)
  }

  function Requeued(p: Pc, t: Tid, q: seq<Tid>, woken: Tid, m: Mid): Pc {
    if t == woken then Woken(p)
    else if t in q && p.CondAsleep? then Asleep(m, p.m, p.k)
    else p
  }

  // ----- steps

  function CallStep(s: State, t: Tid, ch: Choice): State
    requires t < |s.pc| && CallAllowed(s, t, ch.op)
  {
    match ch.op
    case OpLock(m, inSegment) => Goto(s, t, Spin(m, inSegment, ch.fuel + 1))
    case OpTrylock(m) => Goto(s, t, TryOnce(m))
    case OpUnlock(m) => Goto(s, t, Unlocking(Look, m, ToCaller))
    case OpWait(c, m) => Goto(s, t, Binding(ReadSeq, c, m, 0, InWait))
    case OpTimedWait(c, m) => Goto(s, t, Binding(ReadSeq, c, m, 0, InTimedWait))
    case OpSignal(c) => Goto(s, t, SignalInc(c))
    case OpBroadcast(c) => Goto(s, t, BroadcastRead(c))
  }

  /** What a lock or a wait returns with the mutex: a timed wait reads the clock before it calls the futex and
      after it (262, 280); `late` is what the second reading says. */
  function CodeOf(k: Kind, late: bool): Code {
    if k.InLateWait? || (k.InTimedWait? && late) then TimedOut else Ok
  }

  /** Lines 62-96, and the re-acquiring loops at 221-227 and 283-289. */
  function LockStep(s: State, t: Tid, ch: Choice): State
    requires t < |s.pc| && InRange(s, s.pc[t])
  {
    match s.pc[t]
    case Spin(m, inSegment, fuel) =>
      Swap8(s, t, m, Idle(Ok), if fuel == 0 then Mark(m, inSegment) else Spin(m, inSegment, fuel - 1))
    case Mark(m, inSegment) =>
      Swap32(s, t, m, Idle(Ok), if inSegment then NapCall(m) else Remark(m, InLock))
    case NapCall(m) => FutexWait(s, t, m, Napping(m), NapDone(m))
    case Napping(m) => Goto(s, t, NapDone(m))
    case NapDone(m) => Goto(s, t, Spin(m, true, ch.fuel + 1))
    case Remark(m, k) =>
      Swap32(s, t, m, Idle(CodeOf(k, ch.late)), WaitCall(m, k))
    case WaitCall(m, k) => FutexWait(s, t, m, Asleep(m, m, k), Remark(m, k))
    case Asleep(_, m, k) => Goto(s, t, Remark(m, k))
    case TryOnce(m) => Swap8(s, t, m, Idle(Ok), Idle(Busy))
    case _ => s
  }

  function AfterUnlock(m: Mid, next: After): Pc {
    match next
    case ToCaller => Idle(Ok)
    case ToSleep(c, ticket, k) => CondCall(c, m, ticket, k)
  }

  /** Lines 99-106.  `cnt_wake` is written by unlockers that no longer hold the mutex, so each of its
      two reads may return anything. */
  function AdjustTicks(ticks: int, wakes0: nat, wakes1: nat): int {
    if wakes0 > WAKE_MAX_THRESHOLD then (ticks + INCREASE_UNIT) % UINT
    else if wakes1 < WAKE_MIN_THRESHOLD then (ticks - DECREASE_UNIT) % UINT
    else ticks
  }

  /** What each access of an unlock does to the mutex (lines 108-137). */
  function UnlockEffect(x: Mutex, at: UStage, ch: Choice): Mutex {
    match at
    case Cas => if x.w.U() == 1 then x.(w := FromU(0), owner := None) else x
    case Store(v) => x.(cntUnlock := (v + 1) % UINT, slow := x.slow + 1)
    case Adjust => x.(ticks := AdjustTicks(x.ticks, ch.wakes0, ch.wakes1), adjusts := x.adjusts + 1)
    case Release => x.(w := x.w.(locked := UNLOCKED), owner := None)
    case Clear => x.(w := x.w.(contended := UNCONTENDED))
    case _ => x
  }

  /** Which access comes next, or `None` when the unlock is over. */
  function NextStage(x: Mutex, at: UStage): Option<UStage> {
    match at
    case Look => Some(if x.w.U() == 1 then Cas else Load)
    case Cas => if x.w.U() == 1 then None else Some(Load)
    case Load => Some(Store(x.cntUnlock))
    case Store(_) => Some(Test)
    case Test => Some(if x.cntUnlock % ADJUST_PERIOD == 0 then Adjust else Release)
    case Adjust => Some(Release)
    case Release => Some(Peek1)
    case Peek1 => if x.w.locked != UNLOCKED then None else Some(Peek2)
    case Peek2 => if x.w.locked == LOCKED then None else Some(Clear)
    case Clear => Some(Wake)
    case Wake => None
  }

  function UnlockStep(s: State, t: Tid, ch: Choice): State
    requires t < |s.pc| && InRange(s, s.pc[t]) && s.pc[t].Unlocking?
  {
    var Unlocking(at, m, next) := s.pc[t];
    var s1 := if at.Wake? && SleepsOn(s, ch.pick, m) then Goto(s, ch.pick, Woken(s.pc[ch.pick])) else s;
    var p := match NextStage(s.mx[m], at) case None => AfterUnlock(m, next) case Some(n) => Unlocking(n, m, next);
    Goto(SetMutex(s1, m, UnlockEffect(s.mx[m], at, ch)), t, p)
  }

  /** Lines 203-219 and 232-268. */
  function WaitStep(s: State, t: Tid, ch: Choice): State
    requires t < |s.pc| && InRange(s, s.pc[t]) && (s.pc[t].Binding? || s.pc[t].CondCall?)
  {
    match s.pc[t]
    case Binding(at, c, m, ticket, k) => (
      var x := s.cv[c];
      var unlock := Unlocking(Look, m, ToSleep(c, ticket, k));
      match at
      case ReadSeq => Goto(s, t, Binding(Compare, c, m, x.incs, k))
      case Compare => Goto(s, t, if x.m != Some(m) then Binding(IsSet, c, m, ticket, k) else unlock)
      case IsSet => Goto(s, t, if x.m.Some? then Idle(Inval) else Binding(Bind, c, m, ticket, k))
      case Bind =>
        Goto(if x.m.None? then SetCond(s, c, x.(m := Some(m))) else s, t, Binding(Recheck, c, m, ticket, k))
      case Recheck => Goto(s, t, if x.m != Some(m) then Idle(Inval) else unlock)
    )
    case CondCall(c, m, ticket, k) =>
      var x := s.cv[c];
      if k.InTimedWait? && ch.late then Goto(s, t, Remark(m, InLateWait))
      else if x.incs % UINT != ticket % UINT then Goto(s, t, Remark(m, k))
      else Goto(SetCond(s, c, x.(q := x.q + [t])), t, CondAsleep(c, m, ticket, k))
  }

  /** Lines 177-201. */
  function SignalStep(s: State, t: Tid, ch: Choice): State
    requires Enabled(s, t, ch)
  {
    match s.pc[t]
    case SignalInc(c) => Goto(SetCond(s, c, s.cv[c].(incs := s.cv[c].incs + 1)), t, SignalWake(c))
    case SignalWake(c) => Goto(if s.cv[c].q == [] then s else Dequeue(s, c, ch.pick), t, Idle(Ok))
    case BroadcastRead(c) =>
      Goto(s, t, if s.cv[c].m.None? then Idle(Ok) else BroadcastInc(c, s.cv[c].m.value))
    case BroadcastInc(c, m) =>
      Goto(SetCond(s, c, s.cv[c].(incs := s.cv[c].incs + 1)), t, BroadcastRequeue(c, m))
    case BroadcastRequeue(c, m) => Goto(if s.cv[c].q == [] then s else Requeue(s, c, m, ch.pick), t, Idle(Ok))
    case _ => s
  }

  function Next(s: State, t: Tid, ch: Choice): State
    requires Enabled(s, t, ch)
  {
    match s.pc[t]
    case Idle(_) => CallStep(s, t, ch)
    case Unlocking(_, _, _) => UnlockStep(s, t, ch)
    case Binding(_, _, _, _, _) => WaitStep(s, t, ch)
    case CondCall(_, _, _, _) => WaitStep(s, t, ch)
    case CondAsleep(c, _, _, _) => Dequeue(s, c, ch.pick)
    case SignalInc(_) => SignalStep(s, t, ch)
    case SignalWake(_) => SignalStep(s, t, ch)
    case BroadcastRead(_) => SignalStep(s, t, ch)
    case BroadcastInc(_, _) => SignalStep(s, t, ch)
    case BroadcastRequeue(_, _) => SignalStep(s, t, ch)
    case _ => LockStep(s, t, ch)
  }

  // ----- runs

  datatype Event = Event(t: Tid, ch: Choice)

  /** `states` is the run that the schedule `events` drives from `states[0]`. */
  ghost predicate IsRun(states: seq<State>, events: seq<Event>) {
    && |states| == |events| + 1
    && forall i :: 0 <= i < |events| ==> StepAt(states, events, i)
  }

  ghost predicate StepAt(states: seq<State>, events: seq<Event>, i: nat)
    requires |states| == |events| + 1 && i < |events|
  {
    IsStep(states[i], events[i], states[i + 1])
  }

  ghost predicate IsStep(s: State, e: Event, s': State) {
    Enabled(s, e.t, e.ch) && s' == Next(s, e.t, e.ch)
  }

  ghost predicate StartsFresh(s: State) {
    exists ms: nat, cs: nat, ts: nat :: s == Init(ms, cs, ts)
  }
}

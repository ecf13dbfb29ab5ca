/**
 The concurrent table is linearizable when each mutex is put at most once: every call takes effect at one
 step of its own, between its first step and its return, and in the order of these steps the calls do what
 they would do one after the other on a map (litl/src/interpose.c, lines 90-122).
 */
module LockTableLinear {
  import opened LockTable
  import opened LockTableConcurrent

  // ----- the calls one after the other, on a map

  datatype Mutex = Mutex(address: Address)

  function KeyOf(op: Op): Mutex { Mutex(op.key) }

  /** What a call that ends at `p` leaves of the map. */
  function Does(m: map<Mutex, Address>, op: Op, p: Pc): map<Mutex, Address> {
    if op.Put? && !p.PutFull? then m[KeyOf(op) := op.impl] else m
  }

  /** May a call on the map end at `p`?  A get returns the map's value or NULL; a put finds its key absent,
      or is refused. */
  predicate Allows(m: map<Mutex, Address>, op: Op, p: Pc) {
    match p
    case GetDone(r) => op.Get? && r == if KeyOf(op) in m then m[KeyOf(op)] else NULL
    case PutFull => op.Put?
    case PutStore(_) => op.Put? && KeyOf(op) !in m
    case PutDone(_) => op.Put? && KeyOf(op) !in m
    case _ => false
  }

  predicate CallsOf(ops: seq<Op>, order: seq<nat>) { forall i :: 0 <= i < |order| ==> order[i] < |ops| }

  function Replay(ops: seq<Op>, ends: seq<Pc>, order: seq<nat>): map<Mutex, Address>
    requires CallsOf(ops, order) && |ends| == |ops|
  {
    if order == [] then map[]
    else
      var n := |order| - 1;
      Does(Replay(ops, ends, order[..n]), ops[order[n]], ends[order[n]])
  }

  /** Executed in this order, each call may end as it does. */
  predicate Legal(ops: seq<Op>, ends: seq<Pc>, order: seq<nat>)
    requires CallsOf(ops, order) && |ends| == |ops|
  {
    forall i :: 0 <= i < |order| ==> Allows(Replay(ops, ends, order[..i]), ops[order[i]], ends[order[i]])
  }

  // ----- where a call takes effect

  /** Has a call at `p`, which ends at `end`, taken effect?  A put does with its claim or its refusal, a get
      that finds a value when it returns it, and a get that finds none when it begins. */
  predicate Effective(p: Pc, end: Pc) {
    match p
    case Ready => false
    case PutRead(_) => false
    case PutCas(_) => false
    case GetRead(_) => end == GetDone(NULL)
    case GetSpin(_) => end == GetDone(NULL)
    case _ => true
  }

  predicate Over(p: Pc) { p.PutDone? || p.PutFull? || p.GetDone? }

  /** The calls that take effect in the first `n` steps, in the order in which they do. */
  ghost function Order(ops: seq<Op>, states: seq<State>, schedule: seq<nat>, n: nat): seq<nat>
    requires IsRun(ops, states, schedule) && n <= |schedule|
  {
    if n == 0 then []
    else
      var order := Order(ops, states, schedule, n - 1);
      if TakesEffect(ops, states, schedule, n - 1) then order + [schedule[n - 1]] else order
  }

  /** Where the calls are at the end of the run. */
  ghost function Ends(ops: seq<Op>, states: seq<State>, schedule: seq<nat>): (ends: seq<Pc>)
    requires IsRun(ops, states, schedule)
    ensures |ends| == |ops|
  {
    RunInv(ops, states, schedule, |schedule|);
    states[|schedule|].pc
  }

  ghost function End(ops: seq<Op>, states: seq<State>, schedule: seq<nat>, c: nat): Pc
    requires IsRun(ops, states, schedule) && c < |ops|
  {
    Ends(ops, states, schedule)[c]
  }

  /** The call that makes step `n` takes effect with it. */
  ghost predicate TakesEffect(ops: seq<Op>, states: seq<State>, schedule: seq<nat>, n: nat)
    requires IsRun(ops, states, schedule) && n < |schedule|
  {
    var c := schedule[n];
    && c < |ops| && c < |states[n].pc| && c < |states[n + 1].pc|
    && !Effective(states[n].pc[c], End(ops, states, schedule, c))
    && Effective(states[n + 1].pc[c], End(ops, states, schedule, c))
  }

  /** How a call may move: forward only. */
  predicate Forward(p: Pc, p': Pc) {
    && (Over(p) ==> p' == p)
    && (p.PutStore? ==> p'.PutStore? || p'.PutDone?)
    && (p' == Ready ==> p == Ready)
  }

  lemma NextIsForward(s: State, c: nat, d: nat)
    requires Shaped(s) && c < |s.ops| && d < |s.ops|
    ensures Shaped(Next(s, c)) && Next(s, c).ops == s.ops && Forward(s.pc[d], Next(s, c).pc[d])
    ensures d != c ==> Next(s, c).pc[d] == s.pc[d]
  {
    NextIsShaped(s, c);
  }

  /** Step `n` moves its own call forward and no other. */
  lemma StepIsForward(ops: seq<Op>, states: seq<State>, schedule: seq<nat>, n: nat, d: nat)
    requires IsRun(ops, states, schedule) && n < |schedule| && d < |ops|
    ensures Shaped(states[n]) && Shaped(states[n + 1]) && states[n].ops == ops && states[n + 1].ops == ops
    ensures schedule[n] < |ops| && Forward(states[n].pc[d], states[n + 1].pc[d])
    ensures d != schedule[n] ==> states[n + 1].pc[d] == states[n].pc[d]
  {
    RunInv(ops, states, schedule, n);
    assert StepsAt(ops, states, schedule, n);
    NextIsForward(states[n], schedule[n], d);
  }

  lemma {:induction false} RunIsForward(ops: seq<Op>, states: seq<State>, schedule: seq<nat>, m: nat, n: nat, d: nat)
    requires IsRun(ops, states, schedule) && m <= n <= |schedule| && d < |ops|
    ensures Shaped(states[m]) && Shaped(states[n]) && states[m].ops == ops && states[n].ops == ops
    ensures Forward(states[m].pc[d], states[n].pc[d])
  {
    if m == n {
      RunInv(ops, states, schedule, n);
    } else {
      RunIsForward(ops, states, schedule, m, n - 1, d);
      StepIsForward(ops, states, schedule, n - 1, d);
    }
  }

  /** Once a call has taken effect, it has. */
  lemma StaysEffective(ops: seq<Op>, states: seq<State>, schedule: seq<nat>, n: nat, d: nat)
    requires IsRun(ops, states, schedule) && n < |schedule| && d < |ops|
    requires d < |states[n].pc| && Effective(states[n].pc[d], End(ops, states, schedule, d))
    ensures d < |states[n + 1].pc| && Effective(states[n + 1].pc[d], End(ops, states, schedule, d))
  {
    RunInv(ops, states, schedule, n);
    assert StepsAt(ops, states, schedule, n);
    NextIsShaped(states[n], schedule[n]);
    assert AtOp(ops[d], states[n].pc[d]);
  }

  lemma {:induction false} OrderIsOfCalls(ops: seq<Op>, states: seq<State>, schedule: seq<nat>, n: nat)
    requires IsRun(ops, states, schedule) && n <= |schedule|
    ensures CallsOf(ops, Order(ops, states, schedule, n))
  {
    if n > 0 { OrderIsOfCalls(ops, states, schedule, n - 1); }
  }

  lemma {:induction false} OrderGrows(ops: seq<Op>, states: seq<State>, schedule: seq<nat>, m: nat, n: nat)
    requires IsRun(ops, states, schedule) && m <= n <= |schedule|
    ensures Order(ops, states, schedule, m) <= Order(ops, states, schedule, n)
  {
    if m < n { OrderGrows(ops, states, schedule, m, n - 1); }
  }

  /** The calls in the order are those that have taken effect, each once. */
  lemma {:induction false} OrderIsOfEffects(ops: seq<Op>, states: seq<State>, schedule: seq<nat>, n: nat, d: nat)
    requires IsRun(ops, states, schedule) && n <= |schedule| && d < |ops|
    ensures d < |states[n].pc|
    ensures d in Order(ops, states, schedule, n) <==> Effective(states[n].pc[d], End(ops, states, schedule, d))
  {
    RunInv(ops, states, schedule, n);
    if n > 0 {
      OrderIsOfEffects(ops, states, schedule, n - 1, d);
      StepIsForward(ops, states, schedule, n - 1, d);
      if Effective(states[n - 1].pc[d], End(ops, states, schedule, d)) { StaysEffective(ops, states, schedule, n - 1, d); }
    }
  }

  predicate Distinct(order: seq<nat>) { forall i, j :: 0 <= i < j < |order| ==> order[i] != order[j] }

  lemma DistinctWithOneMore(order: seq<nat>, c: nat)
    requires Distinct(order) && c !in order
    ensures Distinct(order + [c])
  {
    forall i, j | 0 <= i < j < |order| + 1 ensures (order + [c])[i] != (order + [c])[j] {
      assert order[i] in order;
    }
  }

  lemma {:induction false} OrderIsDistinct(ops: seq<Op>, states: seq<State>, schedule: seq<nat>, n: nat)
    requires IsRun(ops, states, schedule) && n <= |schedule|
    ensures Distinct(Order(ops, states, schedule, n))
  {
    if n > 0 {
      OrderIsDistinct(ops, states, schedule, n - 1);
      if TakesEffect(ops, states, schedule, n - 1) {
        OrderIsOfEffects(ops, states, schedule, n - 1, schedule[n - 1]);
        DistinctWithOneMore(Order(ops, states, schedule, n - 1), schedule[n - 1]);
      }
    }
  }

  // ----- the map along a run

  predicate Claimed(s: State, c: nat)
    requires c < |s.ops|
  {
    HasClaimed(s, c) && s.ops[c].Put?
  }

  /** What the first `n` calls have claimed so far. */
  ghost function MapUpTo(s: State, n: nat): map<Mutex, Address>
    requires n <= |s.ops|
  {
    if n == 0 then map[]
    else
      var m := MapUpTo(s, n - 1);
      if Claimed(s, n - 1) then m[KeyOf(s.ops[n - 1]) := s.ops[n - 1].impl] else m
  }

  /** The map that the table stands for: each claimed key with the value of the put that claimed it. */
  ghost function MapOf(s: State): map<Mutex, Address> { MapUpTo(s, |s.ops|) }

  lemma {:induction false} ClaimedIsMapped(s: State, n: nat, c: nat)
    requires SinglePut(s.ops) && c < n <= |s.ops| && Claimed(s, c)
    ensures KeyOf(s.ops[c]) in MapUpTo(s, n) && MapUpTo(s, n)[KeyOf(s.ops[c])] == s.ops[c].impl
  {
    if c < n - 1 {
      ClaimedIsMapped(s, n - 1, c);
      assert Claimed(s, n - 1) ==> s.ops[n - 1].key != s.ops[c].key;
    }
  }

  lemma {:induction false} MappedIsClaimed(s: State, n: nat, key: Mutex) returns (c: nat)
    requires n <= |s.ops| && key in MapUpTo(s, n)
    ensures c < n && Claimed(s, c) && KeyOf(s.ops[c]) == key && MapUpTo(s, n)[key] == s.ops[c].impl
  {
    if Claimed(s, n - 1) && KeyOf(s.ops[n - 1]) == key { c := n - 1; } else { c := MappedIsClaimed(s, n - 1, key); }
  }

  lemma MapOfMaps(s: State, key: Address, value: Address)
    requires SinglePut(s.ops)
    ensures Maps(s, key, value) <==> Mutex(key) in MapOf(s) && MapOf(s)[Mutex(key)] == value
  {
    if Maps(s, key, value) {
      var c: nat :| c < |s.ops| && HasClaimed(s, c) && s.ops[c] == Put(key, value);
      ClaimedIsMapped(s, |s.ops|, c);
    } else if Mutex(key) in MapOf(s) {
      var c := MappedIsClaimed(s, |s.ops|, Mutex(key));
      assert s.ops[c] == Put(key, s.ops[c].impl);
    }
  }

  predicate JustClaims(s: State, s': State, c: nat)
    requires c < |s.ops|
  {
    s.ops[c].Put? && !HasClaimed(s, c) && HasClaimed(s', c)
  }

  /** Between `s` and `s'` nothing is claimed, but for a claim that call `c` may make. */
  ghost predicate ClaimsBy(s: State, s': State, c: nat) {
    && s'.ops == s.ops && c < |s.ops| && (Claimed(s, c) ==> Claimed(s', c))
    && forall d: nat :: d < |s.ops| && d != c ==> (Claimed(s', d) <==> Claimed(s, d))
  }

  lemma {:induction false} OneClaimAdds(s: State, s': State, c: nat, n: nat)
    requires SinglePut(s.ops) && ClaimsBy(s, s', c) && n <= |s.ops|
    ensures MapUpTo(s', n) == if c < n && JustClaims(s, s', c) then MapUpTo(s, n)[KeyOf(s.ops[c]) := s.ops[c].impl]
                              else MapUpTo(s, n)
  {
    if n > 0 {
      OneClaimAdds(s, s', c, n - 1);
      var m, op := MapUpTo(s, n - 1), s.ops[n - 1];
      if c < n - 1 && JustClaims(s, s', c) && Claimed(s, n - 1) {
        assert s.ops[c].key != op.key;
        assert m[KeyOf(s.ops[c]) := s.ops[c].impl][KeyOf(op) := op.impl] == m[KeyOf(op) := op.impl][KeyOf(s.ops[c]) := s.ops[c].impl];
      }
    }
  }

  /** The map changes with a claim only, and then by one key that it did not have. */
  lemma MapChangesWithClaims(s: State, s': State, c: nat)
    requires SinglePut(s.ops) && ClaimsBy(s, s', c)
    ensures JustClaims(s, s', c) ==> KeyOf(s.ops[c]) !in MapOf(s)
    ensures MapOf(s') == if JustClaims(s, s', c) then MapOf(s)[KeyOf(s.ops[c]) := s.ops[c].impl] else MapOf(s)
  {
    OneClaimAdds(s, s', c, |s.ops|);
    if JustClaims(s, s', c) && KeyOf(s.ops[c]) in MapOf(s) {
      var d := MappedIsClaimed(s, |s.ops|, KeyOf(s.ops[c]));
    }
  }

  lemma ClaimIsEffect(ops: seq<Op>, states: seq<State>, schedule: seq<nat>, n: nat)
    requires IsRun(ops, states, schedule) && n < |schedule|
    ensures Shaped(states[n]) && Shaped(states[n + 1]) && states[n].ops == ops && states[n + 1].ops == ops
    ensures var c := schedule[n];
            && c < |ops|
            && (JustClaims(states[n], states[n + 1], c) <==>
                TakesEffect(ops, states, schedule, n) && ops[c].Put? && !End(ops, states, schedule, c).PutFull?)
  {
    RunInv(ops, states, schedule, n);
    assert StepsAt(ops, states, schedule, n);
    var c := schedule[n];
    StepIsForward(ops, states, schedule, n, c);
    RunIsForward(ops, states, schedule, n + 1, |schedule|, c);
    assert AtOp(ops[c], states[n].pc[c]) && AtOp(ops[c], states[n + 1].pc[c]);
  }

  /** What a step does to the map, and what a put finds there. */
  lemma MapStep(ops: seq<Op>, states: seq<State>, schedule: seq<nat>, n: nat)
    requires IsRun(ops, states, schedule) && n < |schedule| && SinglePut(ops)
    ensures var c := schedule[n];
            && c < |ops|
            && MapOf(states[n + 1]) == (if TakesEffect(ops, states, schedule, n)
                                        then Does(MapOf(states[n]), ops[c], End(ops, states, schedule, c))
                                        else MapOf(states[n]))
            && (TakesEffect(ops, states, schedule, n) && ops[c].Put? && !End(ops, states, schedule, c).PutFull?
                ==> KeyOf(ops[c]) !in MapOf(states[n]))
  {
    ClaimIsEffect(ops, states, schedule, n);
    forall d: nat | d < |ops|
      ensures if d == schedule[n] then Claimed(states[n], d) ==> Claimed(states[n + 1], d)
              else Claimed(states[n + 1], d) <==> Claimed(states[n], d)
    {
      StepIsForward(ops, states, schedule, n, d);
    }
    MapChangesWithClaims(states[n], states[n + 1], schedule[n]);
  }

  lemma ReplayOneMore(ops: seq<Op>, ends: seq<Pc>, order: seq<nat>, c: nat)
    requires CallsOf(ops, order) && |ends| == |ops| && c < |ops|
    ensures CallsOf(ops, order + [c])
    ensures Replay(ops, ends, order + [c]) == Does(Replay(ops, ends, order), ops[c], ends[c])
  {
    assert (order + [c])[..|order|] == order;
  }

  lemma {:induction false} EmptyMap(ops: seq<Op>, n: nat)
    requires n <= |ops|
    ensures MapUpTo(Init(ops), n) == map[]
  {
    if n > 0 { EmptyMap(ops, n - 1); }
  }

  /** At every step, the map is what the calls that have taken effect make of it one after the other. */
  lemma {:induction false} MapIsReplay(ops: seq<Op>, states: seq<State>, schedule: seq<nat>, n: nat)
      returns (m: map<Mutex, Address>)
    requires IsRun(ops, states, schedule) && n <= |schedule| && SinglePut(ops)
    ensures CallsOf(ops, Order(ops, states, schedule, n))
    ensures m == MapOf(states[n]) && m == Replay(ops, Ends(ops, states, schedule), Order(ops, states, schedule, n))
  {
    OrderIsOfCalls(ops, states, schedule, n);
    if n == 0 {
      EmptyMap(ops, |ops|);
      m := map[];
    } else {
      var before := MapIsReplay(ops, states, schedule, n - 1);
      MapStep(ops, states, schedule, n - 1);
      ReplayOneMore(ops, Ends(ops, states, schedule), Order(ops, states, schedule, n - 1), schedule[n - 1]);
      m := MapOf(states[n]);
    }
  }

  // ----- every answer is the map's at that point

  lemma PutAnswers(ops: seq<Op>, states: seq<State>, schedule: seq<nat>, n: nat)
    requires IsRun(ops, states, schedule) && n < |schedule| && SinglePut(ops)
    requires TakesEffect(ops, states, schedule, n) && ops[schedule[n]].Put?
    ensures Shaped(states[n]) && states[n].ops == ops
    ensures Allows(MapOf(states[n]), ops[schedule[n]], End(ops, states, schedule, schedule[n]))
  {
    var c := schedule[n];
    MapStep(ops, states, schedule, n);
    StepIsForward(ops, states, schedule, n, c);
    RunIsForward(ops, states, schedule, n + 1, |schedule|, c);
    assert AtOp(ops[c], states[n + 1].pc[c]);
  }

  lemma MissAnswers(ops: seq<Op>, states: seq<State>, schedule: seq<nat>, n: nat)
    requires IsRun(ops, states, schedule) && n < |schedule| && SinglePut(ops)
    requires TakesEffect(ops, states, schedule, n) && ops[schedule[n]].Get?
    requires End(ops, states, schedule, schedule[n]) == GetDone(NULL)
    ensures Shaped(states[n]) && states[n].ops == ops
    ensures KeyOf(ops[schedule[n]]) !in MapOf(states[n])
  {
    var c := schedule[n];
    RunInv(ops, states, schedule, n);
    RunInv(ops, states, schedule, |schedule|);
    assert AtOp(ops[c], states[n].pc[c]) && states[n].pc[c] == Ready;
    GetLinearizes(ops, states, schedule, n, |schedule|, c);
    if KeyOf(ops[c]) in MapOf(states[n]) { MapOfMaps(states[n], ops[c].key, MapOf(states[n])[KeyOf(ops[c])]); }
  }

  lemma HitAnswers(ops: seq<Op>, states: seq<State>, schedule: seq<nat>, n: nat)
    requires IsRun(ops, states, schedule) && n < |schedule| && SinglePut(ops)
    requires TakesEffect(ops, states, schedule, n) && ops[schedule[n]].Get?
    requires End(ops, states, schedule, schedule[n]) != GetDone(NULL)
    ensures Shaped(states[n]) && states[n].ops == ops
    ensures Allows(MapOf(states[n]), ops[schedule[n]], End(ops, states, schedule, schedule[n]))
  {
    var c := schedule[n];
    StepIsForward(ops, states, schedule, n, c);
    RunIsForward(ops, states, schedule, n + 1, |schedule|, c);
    RunInv(ops, states, schedule, n);
    assert AtOp(ops[c], states[n].pc[c]) && AtOp(ops[c], states[n + 1].pc[c]);
    ReturnsFromSlot(ops, states, schedule, n);
    PublishedValueIsMapped(states[n], c);
    MapOfMaps(states[n], ops[c].key, states[n + 1].pc[c].r);
  }

  /** A get that takes effect with its return has found the value in its slot. */
  lemma ReturnsFromSlot(ops: seq<Op>, states: seq<State>, schedule: seq<nat>, n: nat)
    requires IsRun(ops, states, schedule) && n < |schedule|
    requires TakesEffect(ops, states, schedule, n) && ops[schedule[n]].Get?
    requires End(ops, states, schedule, schedule[n]) != GetDone(NULL)
    ensures Inv(states[n]) && states[n].ops == ops && schedule[n] < |states[n + 1].pc|
    ensures var c, s := schedule[n], states[n];
            && s.pc[c].GetSpin? && s.pc[c].i < BUCKET_LENGTH
            && s.cells[s.home[c]][s.pc[c].i].value != NULL
            && states[n + 1].pc[c] == GetDone(s.cells[s.home[c]][s.pc[c].i].value)
  {
    var c := schedule[n];
    RunInv(ops, states, schedule, n);
    assert StepsAt(ops, states, schedule, n);
    StepIsForward(ops, states, schedule, n, c);
    RunIsForward(ops, states, schedule, n + 1, |schedule|, c);
    assert AtOp(ops[c], states[n].pc[c]) && AtOp(ops[c], states[n + 1].pc[c]);
  }

  lemma AnswerIsAllowed(ops: seq<Op>, states: seq<State>, schedule: seq<nat>, n: nat)
    requires IsRun(ops, states, schedule) && n < |schedule| && SinglePut(ops) && TakesEffect(ops, states, schedule, n)
    ensures Shaped(states[n]) && states[n].ops == ops
    ensures Allows(MapOf(states[n]), ops[schedule[n]], End(ops, states, schedule, schedule[n]))
  {
    if ops[schedule[n]].Put? {
      PutAnswers(ops, states, schedule, n);
    } else if End(ops, states, schedule, schedule[n]) == GetDone(NULL) {
      MissAnswers(ops, states, schedule, n);
    } else {
      HitAnswers(ops, states, schedule, n);
    }
  }

  lemma {:induction false} OrderIsLegal(ops: seq<Op>, states: seq<State>, schedule: seq<nat>, n: nat)
    requires IsRun(ops, states, schedule) && n <= |schedule| && SinglePut(ops)
    ensures CallsOf(ops, Order(ops, states, schedule, n))
    ensures Legal(ops, Ends(ops, states, schedule), Order(ops, states, schedule, n))
  {
    OrderIsOfCalls(ops, states, schedule, n);
    if n > 0 {
      OrderIsLegal(ops, states, schedule, n - 1);
      if TakesEffect(ops, states, schedule, n - 1) {
        var m := MapIsReplay(ops, states, schedule, n - 1);
        AnswerIsAllowed(ops, states, schedule, n - 1);
        LegalWithOneMore(ops, Ends(ops, states, schedule), Order(ops, states, schedule, n - 1), schedule[n - 1]);
      }
    }
  }

  lemma LegalWithOneMore(ops: seq<Op>, ends: seq<Pc>, order: seq<nat>, c: nat)
    requires CallsOf(ops, order) && |ends| == |ops| && c < |ops| && Legal(ops, ends, order)
    requires Allows(Replay(ops, ends, order), ops[c], ends[c])
    ensures CallsOf(ops, order + [c]) && Legal(ops, ends, order + [c])
  {
    forall i | 0 <= i < |order| + 1
      ensures Allows(Replay(ops, ends, (order + [c])[..i]), ops[(order + [c])[i]], ends[(order + [c])[i]])
    {
      assert (order + [c])[..i] == order[..i];
      if i == |order| { assert order[..i] == order; }
    }
  }

  /** The table is linearizable.  In the order in which they take effect, the calls do on a map what they
      did concurrently; every call that is over is in that order, once; and a call that was over before
      another one began comes before it. */
  lemma Linearizable(ops: seq<Op>, states: seq<State>, schedule: seq<nat>) returns (order: seq<nat>)
    requires IsRun(ops, states, schedule) && SinglePut(ops)
    ensures CallsOf(ops, order)
    ensures Legal(ops, Ends(ops, states, schedule), order)
    ensures Distinct(order)
    ensures forall c :: 0 <= c < |ops| && Over(Ends(ops, states, schedule)[c]) ==> c in order
    ensures forall n, i, j :: 0 <= n <= |schedule| && 0 <= i < |order| && 0 <= j < |order|
                              && |states[n].pc| == |ops| && Over(states[n].pc[order[i]]) && states[n].pc[order[j]] == Ready
              ==> i < j
  {
    order := Order(ops, states, schedule, |schedule|);
    OrderIsLegal(ops, states, schedule, |schedule|);
    OrderIsDistinct(ops, states, schedule, |schedule|);
    forall c | 0 <= c < |ops| && Over(Ends(ops, states, schedule)[c]) ensures c in order {
      OrderIsOfEffects(ops, states, schedule, |schedule|, c);
    }
    forall n, i, j | 0 <= n <= |schedule| && 0 <= i < |order| && 0 <= j < |order|
                     && |states[n].pc| == |ops| && Over(states[n].pc[order[i]]) && states[n].pc[order[j]] == Ready
      ensures i < j
    {
      RealTime(ops, states, schedule, n, order, i, j);
    }
  }

  lemma RealTime(ops: seq<Op>, states: seq<State>, schedule: seq<nat>, n: nat, order: seq<nat>, i: nat, j: nat)
    requires IsRun(ops, states, schedule) && n <= |schedule| && order == Order(ops, states, schedule, |schedule|)
    requires CallsOf(ops, order) && i < |order| && j < |order| && |states[n].pc| == |ops|
    requires Distinct(order)
    requires Over(states[n].pc[order[i]]) && states[n].pc[order[j]] == Ready
    ensures i < j
  {
    var early := Order(ops, states, schedule, n);
    OrderGrows(ops, states, schedule, n, |schedule|);
    OrderIsOfEffects(ops, states, schedule, n, order[i]);
    OrderIsOfEffects(ops, states, schedule, n, order[j]);
    var k :| 0 <= k < |early| && early[k] == order[i];
    assert order[k] == order[i];
    assert forall a :: 0 <= a < |early| ==> order[a] in early;
  }
}

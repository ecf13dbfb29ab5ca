/**
 Calls on the interposition table come to an end, under any interleaving: within how many steps of their
 own, what may hold a get up meanwhile, and with which answer (litl/src/interpose.c, lines 90-122).
 */
module LockTableProgress {
  import opened LockTable
  import opened LockTableConcurrent

  predicate Over(p: Pc) { p.PutDone? || p.PutFull? || p.GetDone? }

  /** A get waits for the value of a slot that put `d` has claimed and not stored to yet. */
  predicate HeldBy(s: State, c: nat, d: nat) {
    && c < |s.ops| && d < |s.ops| && |s.pc| == |s.ops| == |s.home|
    && s.pc[c].GetSpin? && s.pc[d] == PutStore(s.pc[c].i)
    && s.home[d] == s.home[c] && s.ops[d].Put? && s.ops[d].key == s.ops[c].key
  }

  ghost predicate Held(s: State, c: nat) { exists d: nat :: HeldBy(s, c, d) }

  /** How many steps of its own, holds aside, a call has yet to make at most. */
  function ToGo(p: Pc, put: bool): nat {
    match p
    case Ready => if put then 2 * BUCKET_LENGTH + 2 else BUCKET_LENGTH + 2
    case PutRead(i) => if i < BUCKET_LENGTH then 2 * (BUCKET_LENGTH - i) + 1 else 0
    case PutCas(i) => if i < BUCKET_LENGTH then 2 * (BUCKET_LENGTH - i) else 0
    case PutStore(_) => 1
    case GetRead(i) => if i < BUCKET_LENGTH then BUCKET_LENGTH - i + 1 else 0
    case GetSpin(_) => 1
    case _ => 0
  }

  /** A get at a slot without a value is held, by the put that claimed the slot. */
  lemma UnpublishedIsHeld(s: State, c: nat)
    requires Inv(s) && c < |s.ops| && s.pc[c].GetSpin? && Next(s, c) == s
    ensures Held(s, c)
  {
    var b, i := s.home[c], s.pc[c].i;
    assert AtOp(s.ops[c], s.pc[c]) && CallOk(s, c) && SlotOk(s, b, i);
    var d: nat :| Holds(s, d, b, i);
    assert CallOk(s, d) && AtOp(s.ops[d], s.pc[d]);
    assert HeldBy(s, c, d);
  }

  lemma StepGetsNearer(s: State, c: nat)
    requires Inv(s) && c < |s.ops| && !Over(s.pc[c]) && !Held(s, c)
    ensures c < |Next(s, c).pc| && ToGo(Next(s, c).pc[c], s.ops[c].Put?) < ToGo(s.pc[c], s.ops[c].Put?)
  {
    assert AtOp(s.ops[c], s.pc[c]);
    if s.pc[c].GetSpin? && Next(s, c) == s { UnpublishedIsHeld(s, c); }
  }

  function OwnSteps(schedule: seq<nat>, n: nat, c: nat): nat
    requires n <= |schedule|
  {
    if n == 0 then 0 else OwnSteps(schedule, n - 1, c) + if schedule[n - 1] == c then 1 else 0
  }

  /** In the first `n` steps, call `c` moves only when it is not held. */
  ghost predicate NeverHeld(states: seq<State>, schedule: seq<nat>, n: nat, c: nat)
    requires n <= |schedule| <= |states|
  {
    forall k :: 0 <= k < n && schedule[k] == c ==> !Held(states[k], c)
  }

  lemma OthersStayNear(s: State, u: nat, c: nat)
    requires Shaped(s) && u < |s.ops| && c < |s.ops| && (u != c || Over(s.pc[c]))
    ensures c < |Next(s, u).pc| && Next(s, u).pc[c] == s.pc[c]
  {
    assert AtOp(s.ops[u], s.pc[u]);
  }

  lemma {:induction false} StepsCountDown(ops: seq<Op>, states: seq<State>, schedule: seq<nat>, n: nat, c: nat)
    requires IsRun(ops, states, schedule) && n <= |schedule| && c < |ops| && NeverHeld(states, schedule, n, c)
    ensures Inv(states[n]) && states[n].ops == ops
    ensures Over(states[n].pc[c]) || OwnSteps(schedule, n, c) + ToGo(states[n].pc[c], ops[c].Put?) <= ToGo(Ready, ops[c].Put?)
  {
    RunInv(ops, states, schedule, n);
    if n > 0 {
      StepsCountDown(ops, states, schedule, n - 1, c);
      assert StepsAt(ops, states, schedule, n - 1);
      if schedule[n - 1] == c && !Over(states[n - 1].pc[c]) {
        StepGetsNearer(states[n - 1], c);
      } else {
        OthersStayNear(states[n - 1], schedule[n - 1], c);
      }
    }
  }

  lemma NotOverHasToGo(s: State, c: nat)
    requires Shaped(s) && c < |s.ops| && !Over(s.pc[c])
    ensures ToGo(s.pc[c], s.ops[c].Put?) > 0
  {
    assert AtOp(s.ops[c], s.pc[c]);
  }

  /** A get is over within 12 steps of its own, a put within 22, whatever the other calls do.  Only steps
      that a get makes while it is held by a put do not count. */
  lemma CallIsOver(ops: seq<Op>, states: seq<State>, schedule: seq<nat>, n: nat, c: nat)
    requires IsRun(ops, states, schedule) && n <= |schedule| && c < |ops| && NeverHeld(states, schedule, n, c)
    requires OwnSteps(schedule, n, c) >= if ops[c].Put? then 22 else 12
    ensures Inv(states[n]) && states[n].ops == ops && Over(states[n].pc[c])
  {
    StepsCountDown(ops, states, schedule, n, c);
    if !Over(states[n].pc[c]) { NotOverHasToGo(states[n], c); }
  }

  // ----- holds

  /** A put is never held. */
  lemma PutsAreNeverHeld(ops: seq<Op>, states: seq<State>, schedule: seq<nat>, n: nat, c: nat)
    requires IsRun(ops, states, schedule) && n <= |schedule| && c < |ops| && ops[c].Put?
    ensures NeverHeld(states, schedule, n, c)
  {
    forall k | 0 <= k < n && schedule[k] == c ensures !Held(states[k], c) {
      RunInv(ops, states, schedule, k);
      assert AtOp(states[k].ops[c], states[k].pc[c]);
    }
  }

  /** Where a get and the put that holds it are from then on. */
  predicate Freed(s: State, c: nat, d: nat, i: nat) {
    && c < |s.pc| && d < |s.pc|
    && (s.pc[c] == GetSpin(i) || s.pc[c].GetDone?) && (s.pc[d] == PutStore(i) || s.pc[d] == PutDone(i))
  }

  lemma FreedStays(s: State, u: nat, c: nat, d: nat, i: nat)
    requires Shaped(s) && u < |s.ops| && Freed(s, c, d, i)
    ensures Freed(Next(s, u), c, d, i)
  {
    assert AtOp(s.ops[u], s.pc[u]);
  }

  lemma {:induction false} HolderIsKnown(ops: seq<Op>, states: seq<State>, schedule: seq<nat>, m: nat, n: nat, c: nat, d: nat)
    requires IsRun(ops, states, schedule) && m <= n <= |schedule| && HeldBy(states[m], c, d)
    ensures Freed(states[n], c, d, states[m].pc[c].i)
  {
    if m < n {
      HolderIsKnown(ops, states, schedule, m, n - 1, c, d);
      assert StepsAt(ops, states, schedule, n - 1);
      FreedStays(states[n - 1], schedule[n - 1], c, d, states[m].pc[c].i);
    }
  }

  lemma StoredFrees(s: State, c: nat, d: nat, i: nat)
    requires Inv(s) && c < |s.ops| && d < |s.ops| && s.home[d] == s.home[c]
    requires Freed(s, c, d, i) && s.pc[d] == PutDone(i)
    ensures !Held(s, c)
  {
    forall e: nat ensures !HeldBy(s, c, e) {
      if HeldBy(s, c, e) {
        assert AtOp(s.ops[e], s.pc[e]);
        assert SlotOk(s, s.home[c], i);
        assert Holds(s, d, s.home[c], i) && Holds(s, e, s.home[c], i);
      }
    }
  }

  /** A get is held by one put at most, and until the store of that put only, which is its next step. */
  lemma HoldEnds(ops: seq<Op>, states: seq<State>, schedule: seq<nat>, m: nat, n: nat, c: nat, d: nat)
    requires IsRun(ops, states, schedule) && m <= n <= |schedule| && HeldBy(states[m], c, d)
    requires exists k :: m <= k < n && schedule[k] == d
    ensures !Held(states[n], c)
  {
    var k :| m <= k < n && schedule[k] == d;
    var i := states[m].pc[c].i;
    HolderIsKnown(ops, states, schedule, m, k, c, d);
    HolderIsKnown(ops, states, schedule, m, n, c, d);
    RunStep(ops, states, schedule, k);
    assert StepsAt(ops, states, schedule, k);
    RunInv(ops, states, schedule, m);
    RunInv(ops, states, schedule, n);
    StaysStored(ops, states, schedule, k + 1, n, d, i);
    HomesStay(ops, states, schedule, m, n);
    StoredFrees(states[n], c, d, i);
  }

  lemma {:induction false} StaysStored(ops: seq<Op>, states: seq<State>, schedule: seq<nat>, m: nat, n: nat, d: nat, i: nat)
    requires IsRun(ops, states, schedule) && m <= n <= |schedule| && d < |states[m].pc| && states[m].pc[d] == PutDone(i)
    ensures d < |states[n].pc| && states[n].pc[d] == PutDone(i)
  {
    if m < n {
      StaysStored(ops, states, schedule, m, n - 1, d, i);
      assert StepsAt(ops, states, schedule, n - 1);
      RunInv(ops, states, schedule, n - 1);
      OthersStayNear(states[n - 1], schedule[n - 1], d);
    }
  }

  lemma {:induction false} HomesStay(ops: seq<Op>, states: seq<State>, schedule: seq<nat>, m: nat, n: nat)
    requires IsRun(ops, states, schedule) && m <= n <= |schedule|
    ensures states[n].home == states[m].home
  {
    if m < n {
      HomesStay(ops, states, schedule, m, n - 1);
      RunStep(ops, states, schedule, n - 1);
    }
  }

  lemma HolderMoves(s: State, c: nat, d: nat)
    requires Shaped(s) && HeldBy(s, c, d)
    ensures Next(s, d) != s
  {
    assert AtOp(s.ops[d], s.pc[d]);
    assert Next(s, d).pc[d].PutDone?;
  }

  /** The calls never get stuck: where no call can change anything, all of them are over. */
  lemma StuckMeansOver(ops: seq<Op>, states: seq<State>, schedule: seq<nat>, n: nat, c: nat)
    requires IsRun(ops, states, schedule) && n <= |schedule| && c < |ops|
    requires Shaped(states[n]) && states[n].ops == ops
    requires forall d: nat :: d < |ops| ==> Next(states[n], d) == states[n]
    ensures Over(states[n].pc[c])
  {
    var s := states[n];
    RunInv(ops, states, schedule, n);
    if !Over(s.pc[c]) {
      if !Held(s, c) {
        StepGetsNearer(s, c);
      } else {
        var d: nat :| HeldBy(s, c, d);
        HolderMoves(s, c, d);
      }
    }
  }

  // ----- answers

  /** A get of a key that no call puts returns NULL, after at most 12 steps of its own. */
  lemma UnknownKeyAnswersNull(ops: seq<Op>, states: seq<State>, schedule: seq<nat>, n: nat, c: nat)
    requires IsRun(ops, states, schedule) && n <= |schedule| && c < |ops| && ops[c].Get?
    requires forall d: nat :: d < |ops| && ops[d].Put? ==> ops[d].key != ops[c].key
    requires OwnSteps(schedule, n, c) >= 12
    ensures c < |states[n].pc| && states[n].pc[c] == GetDone(NULL)
  {
    forall k | 0 <= k < n && schedule[k] == c ensures !Held(states[k], c) {
      RunInv(ops, states, schedule, k);
    }
    CallIsOver(ops, states, schedule, n, c);
    RunTruthful(ops, states, schedule, n, c);
    assert AtOp(states[n].ops[c], states[n].pc[c]);
  }

  /** A call on a full bucket has claimed nothing. */
  predicate ClaimsNothing(p: Pc) { p.Ready? || p.PutRead? || p.PutCas? || p.PutFull? }

  lemma FullBucketStep(s: State, c: nat)
    requires Inv(s) && c < |s.ops| && s.ops[c].Put? && ClaimsNothing(s.pc[c])
    requires AllClaimed(s.cells[s.home[c]], BUCKET_LENGTH)
    ensures c < |Next(s, c).pc| && ClaimsNothing(Next(s, c).pc[c])
  {
    assert AtOp(s.ops[c], s.pc[c]);
  }

  /** Call `c` has claimed nothing and will find its bucket full. */
  predicate FullForPut(s: State, c: nat)
    requires Shaped(s) && c < |s.ops|
  {
    ClaimsNothing(s.pc[c]) && AllClaimed(s.cells[s.home[c]], BUCKET_LENGTH)
  }

  lemma FullBucketStaysAt(ops: seq<Op>, states: seq<State>, schedule: seq<nat>, n: nat, c: nat)
    requires IsRun(ops, states, schedule) && n < |schedule| && c < |ops| && ops[c].Put?
    requires Shaped(states[n]) && states[n].ops == ops && FullForPut(states[n], c)
    ensures Shaped(states[n + 1]) && states[n + 1].ops == ops && FullForPut(states[n + 1], c)
  {
    RunInv(ops, states, schedule, n);
    assert StepsAt(ops, states, schedule, n);
    FullBucketStepOfAny(states[n], schedule[n], c);
  }

  lemma FullBucketStepOfAny(s: State, u: nat, c: nat)
    requires Inv(s) && u < |s.ops| && c < |s.ops| && s.ops[c].Put? && ClaimsNothing(s.pc[c])
    requires AllClaimed(s.cells[s.home[c]], BUCKET_LENGTH)
    ensures var s' := Next(s, u);
            && Shaped(s') && s'.ops == s.ops && s'.home == s.home
            && ClaimsNothing(s'.pc[c]) && AllClaimed(s'.cells[s.home[c]], BUCKET_LENGTH)
  {
    var s', b := Next(s, u), s.home[c];
    NextIsStep(s, u);
    StepGrows(s, s', u);
    if u == c { FullBucketStep(s, c); }
    forall i | 0 <= i < BUCKET_LENGTH ensures s'.cells[b][i].key != NULL {
      assert Grows(s.cells[b][i], s'.cells[b][i]);
    }
  }

  lemma {:induction false} FullBucketStays(ops: seq<Op>, states: seq<State>, schedule: seq<nat>, begin: nat, n: nat, c: nat)
    requires IsRun(ops, states, schedule) && begin <= n <= |schedule| && c < |ops| && ops[c].Put?
    requires Shaped(states[begin]) && states[begin].ops == ops && FullForPut(states[begin], c)
    ensures Shaped(states[n]) && states[n].ops == ops && FullForPut(states[n], c)
  {
    if begin < n {
      FullBucketStays(ops, states, schedule, begin, n - 1, c);
      FullBucketStaysAt(ops, states, schedule, n - 1, c);
    }
  }

  /** A put that begins when all ten slots of its bucket are taken returns -1, after at most 22 steps of its
      own; one that returns -1 leaves the bucket with all ten taken. */
  lemma PutOnFullBucket(ops: seq<Op>, states: seq<State>, schedule: seq<nat>, begin: nat, n: nat, c: nat)
    requires IsRun(ops, states, schedule) && begin <= n <= |schedule| && c < |ops| && ops[c].Put?
    requires Shaped(states[begin]) && states[begin].ops == ops && states[begin].pc[c] == Ready
    requires AllClaimed(states[begin].cells[states[begin].home[c]], BUCKET_LENGTH)
    requires OwnSteps(schedule, n, c) >= 22
    ensures c < |states[n].pc| && states[n].pc[c] == PutFull
  {
    FullBucketStays(ops, states, schedule, begin, n, c);
    PutsAreNeverHeld(ops, states, schedule, n, c);
    CallIsOver(ops, states, schedule, n, c);
  }

  /** A put that is over has returned 0 and stored its own key and value in a slot of its bucket, or has
      returned -1 and found all ten slots taken. */
  lemma PutAnswers(ops: seq<Op>, states: seq<State>, schedule: seq<nat>, n: nat, c: nat)
    requires IsRun(ops, states, schedule) && n <= |schedule| && c < |ops| && ops[c].Put?
    requires OwnSteps(schedule, n, c) >= 22
    ensures Shaped(states[n]) && states[n].ops == ops && states[n].home[c] == MyHash(ops[c].key)
    ensures var slots := states[n].cells[states[n].home[c]];
            || (states[n].pc[c].PutDone? && states[n].pc[c].i < BUCKET_LENGTH
                && slots[states[n].pc[c].i] == Cell(ops[c].key, ops[c].impl))
            || (states[n].pc[c] == PutFull && AllClaimed(slots, BUCKET_LENGTH))
  {
    PutsAreNeverHeld(ops, states, schedule, n, c);
    CallIsOver(ops, states, schedule, n, c);
    HomesStay(ops, states, schedule, 0, n);
    assert CallOk(states[n], c) && AtOp(states[n].ops[c], states[n].pc[c]);
  }
}

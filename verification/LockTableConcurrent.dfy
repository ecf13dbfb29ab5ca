/**
 The interposition table under concurrency: any number of `hash_put` and `hash_get` calls, one atomic
 step per access to a slot, in any order (litl/src/interpose.c, lines 90-122).
 */
module LockTableConcurrent {
  import opened LockTable

  datatype Cell = Cell(key: Address, value: Address)

  datatype Op = Put(key: Address, impl: Address) | Get(key: Address)

  datatype Pc =
    | Ready
    | PutRead(i: nat)      // 95
    | PutCas(i: nat)       // 97
    | PutStore(i: nat)     // 101
    | PutDone(i: nat)      // 102: returns 0
    | PutFull              // 106: returns -1
    | GetRead(i: nat)      // 114
    | GetSpin(i: nat)      // 115-118
    | GetDone(r: Address)

  /** `cells[b][i]` is slot `i` of bucket `b`; call `c` runs `ops[c]` in bucket `home[c]`, its local
      `cur_hash`, and is at `pc[c]`. */
  datatype State = State(cells: seq<seq<Cell>>, ops: seq<Op>, home: seq<nat>, pc: seq<Pc>)

  predicate Shaped(s: State) {
    && |s.cells| == BUCKET_SIZE
    && (forall b :: 0 <= b < BUCKET_SIZE ==> |s.cells[b]| == BUCKET_LENGTH)
    && |s.pc| == |s.ops| == |s.home|
    && forall c :: 0 <= c < |s.ops| ==> s.home[c] < BUCKET_SIZE && AtOp(s.ops[c], s.pc[c])
  }

  predicate AtOp(op: Op, p: Pc) {
    match p
    case Ready => true
    case PutRead(i) => op.Put? && i < BUCKET_LENGTH
    case PutCas(i) => op.Put? && i < BUCKET_LENGTH
    case PutStore(i) => op.Put? && i < BUCKET_LENGTH
    case PutDone(i) => op.Put? && i < BUCKET_LENGTH
    case PutFull => op.Put?
    case GetRead(i) => op.Get? && i < BUCKET_LENGTH
    case GetSpin(i) => op.Get? && i < BUCKET_LENGTH
    case GetDone(_) => op.Get?
  }

  function Init(ops: seq<Op>): State {
    State(seq(BUCKET_SIZE, _ => seq(BUCKET_LENGTH, _ => Cell(NULL, NULL))), ops,
          seq(|ops|, c requires 0 <= c < |ops| => MyHash(ops[c].key)), seq(|ops|, _ => Ready))
  }

  function Write(s: State, b: nat, i: nat, x: Cell): State
    requires b < |s.cells| && i < |s.cells[b]|
  {
    s.(cells := s.cells[b := s.cells[b][i := x]])
  }

  function Goto(s: State, c: nat, p: Pc): State
    requires c < |s.pc|
  {
    s.(pc := s.pc[c := p])
  }

  function NextSlot(i: nat, put: bool): Pc {
    if i + 1 < BUCKET_LENGTH then if put then PutRead(i + 1) else GetRead(i + 1)
    else if put then PutFull else GetDone(NULL)
  }

  /** The step that call `c` takes. */
  function Next(s: State, c: nat): State
    requires Shaped(s) && c < |s.ops|
  {
    var b, op := s.home[c], s.ops[c];
    match s.pc[c]
    case Ready => Goto(s, c, if op.Put? then PutRead(0) else GetRead(0))
    case PutRead(i) => Goto(s, c, if s.cells[b][i].key == NULL then PutCas(i) else NextSlot(i, true))
    case PutCas(i) =>
      if s.cells[b][i].key == NULL
      then Goto(Write(s, b, i, s.cells[b][i].(key := op.key)), c, PutStore(i))
      else Goto(s, c, NextSlot(i, true))
    case PutStore(i) => Goto(Write(s, b, i, s.cells[b][i].(value := op.impl)), c, PutDone(i))
    case GetRead(i) => Goto(s, c, if s.cells[b][i].key == op.key then GetSpin(i) else NextSlot(i, false))
    case GetSpin(i) => if s.cells[b][i].value == NULL then s else Goto(s, c, GetDone(s.cells[b][i].value))
    case _ => s
  }

  // ----- what holds under any interleaving, whatever is put

  /** No NULL is put or looked up, and a key has one bucket. */
  predicate Addressed(s: State)
    requires Shaped(s)
  {
    && AllGiven(s.ops)
    && forall c, d :: 0 <= c < |s.ops| && 0 <= d < |s.ops| && s.ops[c].key == s.ops[d].key ==> s.home[c] == s.home[d]
  }

  /** Claimed slots come first. */
  predicate Prefix(slots: seq<Cell>) {
    forall i, j :: 0 <= i < j < |slots| && slots[j].key != NULL ==> slots[i].key != NULL
  }

  predicate AllClaimed(slots: seq<Cell>, n: nat) {
    n <= |slots| && forall i :: 0 <= i < n ==> slots[i].key != NULL
  }

  predicate CallOk(s: State, c: nat)
    requires Shaped(s) && c < |s.ops|
  {
    var slots := s.cells[s.home[c]];
    match s.pc[c]
    case PutRead(i) => AllClaimed(slots, i)
    case PutCas(i) => AllClaimed(slots, i)
    case PutStore(i) => slots[i] == Cell(s.ops[c].key, NULL)
    case PutDone(i) => slots[i] == Cell(s.ops[c].key, s.ops[c].impl)
    case PutFull => AllClaimed(slots, BUCKET_LENGTH)
    case GetSpin(i) => slots[i].key == s.ops[c].key
    case _ => true
  }

  /** Call `c` has claimed slot `i` of bucket `b`. */
  predicate Holds(s: State, c: nat, b: nat, i: nat) {
    && c < |s.pc| && c < |s.home|
    && (s.pc[c] == PutStore(i) || s.pc[c] == PutDone(i))
    && s.home[c] == b
  }

  /** A slot is claimed by exactly one put, which knows what belongs there. */
  ghost predicate SlotOk(s: State, b: nat, i: nat)
    requires Shaped(s) && b < BUCKET_SIZE && i < BUCKET_LENGTH
  {
    && (s.cells[b][i].key != NULL ==> exists c: nat :: Holds(s, c, b, i))
    && (s.cells[b][i].key == NULL ==> s.cells[b][i].value == NULL)
    && forall c: nat, d: nat :: Holds(s, c, b, i) && Holds(s, d, b, i) ==> c == d
  }

  ghost predicate Inv(s: State) {
    && Shaped(s) && Addressed(s)
    && (forall b :: 0 <= b < BUCKET_SIZE ==> Prefix(s.cells[b]))
    && (forall c: nat :: c < |s.ops| ==> CallOk(s, c))
    && (forall b: nat, i: nat :: b < BUCKET_SIZE && i < BUCKET_LENGTH ==> SlotOk(s, b, i))
  }

  /** Slots are write-once: a key never changes, and a value is published at most once. */
  predicate Grows(x: Cell, y: Cell) {
    && (x.key != NULL ==> y.key == x.key)
    && (x.value != NULL ==> y.value == x.value)
  }

  ghost predicate CellsGrow(s: State, s': State) {
    forall b, i :: 0 <= b < |s.cells| && 0 <= i < |s.cells[b]| && b < |s'.cells| && i < |s'.cells[b]|
      ==> Grows(s.cells[b][i], s'.cells[b][i])
  }

  /** No NULL is put or looked up. */
  predicate AllGiven(ops: seq<Op>) {
    forall c :: 0 <= c < |ops| ==> ops[c].key != NULL && (ops[c].Put? ==> ops[c].impl != NULL)
  }

  lemma InitInv(ops: seq<Op>)
    requires AllGiven(ops)
    ensures Inv(Init(ops))
  {
  }

  /** What a step of call `c` does to one slot: nothing, or `c` claims it, or `c` publishes its value. */
  predicate CellStep(s: State, s': State, c: nat, b: nat, i: nat)
    requires Shaped(s) && Shaped(s') && c < |s.ops| && c < |s'.ops| && b < BUCKET_SIZE && i < BUCKET_LENGTH
  {
    var x, x' := s.cells[b][i], s'.cells[b][i];
    || (x' == x && (Holds(s, c, b, i) || Holds(s', c, b, i) ==> s'.pc[c] == s.pc[c]))
    || (s.home[c] == b && s.pc[c] == PutCas(i) && s'.pc[c] == PutStore(i)
        && x.key == NULL && x' == x.(key := s.ops[c].key))
    || (s.home[c] == b && s.pc[c] == PutStore(i) && s'.pc[c] == PutDone(i) && x' == x.(value := s.ops[c].impl))
  }

  ghost predicate IsStep(s: State, s': State, c: nat) {
    && Shaped(s) && Shaped(s') && c < |s.ops| && s'.ops == s.ops && s'.home == s.home
    && (forall d: nat :: d < |s.ops| && d != c ==> s'.pc[d] == s.pc[d])
    && (forall b: nat, i: nat :: b < BUCKET_SIZE && i < BUCKET_LENGTH ==> CellStep(s, s', c, b, i))
  }

  lemma NextIsShaped(s: State, c: nat)
    requires Shaped(s) && c < |s.ops|
    ensures var s' := Next(s, c);
            && Shaped(s') && s'.ops == s.ops && s'.home == s.home
            && forall d: nat :: d < |s.ops| && d != c ==> s'.pc[d] == s.pc[d]
  {
    assert AtOp(s.ops[c], s.pc[c]) && s.home[c] < BUCKET_SIZE;
  }

  lemma ClaimIsCellStep(s: State, c: nat, b: nat, i: nat)
    requires Shaped(s) && c < |s.ops| && b < BUCKET_SIZE && i < BUCKET_LENGTH && Shaped(Next(s, c))
    requires AtOp(s.ops[c], s.pc[c]) && s.pc[c].PutCas?
    ensures CellStep(s, Next(s, c), c, b, i)
  {
  }

  lemma StoreIsCellStep(s: State, c: nat, b: nat, i: nat)
    requires Shaped(s) && c < |s.ops| && b < BUCKET_SIZE && i < BUCKET_LENGTH && Shaped(Next(s, c))
    requires AtOp(s.ops[c], s.pc[c]) && s.pc[c].PutStore?
    ensures CellStep(s, Next(s, c), c, b, i)
  {
  }

  lemma ReadIsCellStep(s: State, c: nat, b: nat, i: nat)
    requires Shaped(s) && c < |s.ops| && b < BUCKET_SIZE && i < BUCKET_LENGTH && Shaped(Next(s, c))
    requires AtOp(s.ops[c], s.pc[c]) && !s.pc[c].PutCas? && !s.pc[c].PutStore?
    ensures CellStep(s, Next(s, c), c, b, i)
  {
    assert Next(s, c).cells == s.cells;
  }

  lemma NextIsCellStep(s: State, c: nat, b: nat, i: nat)
    requires Shaped(s) && c < |s.ops| && b < BUCKET_SIZE && i < BUCKET_LENGTH && Shaped(Next(s, c))
    ensures CellStep(s, Next(s, c), c, b, i)
  {
    assert AtOp(s.ops[c], s.pc[c]);
    match s.pc[c]
    case PutCas(_) => ClaimIsCellStep(s, c, b, i);
    case PutStore(_) => StoreIsCellStep(s, c, b, i);
    case _ => ReadIsCellStep(s, c, b, i);
  }

  lemma NextIsStep(s: State, c: nat)
    requires Shaped(s) && c < |s.ops|
    ensures IsStep(s, Next(s, c), c)
  {
    NextIsShaped(s, c);
    forall b: nat, i: nat | b < BUCKET_SIZE && i < BUCKET_LENGTH ensures CellStep(s, Next(s, c), c, b, i) {
      NextIsCellStep(s, c, b, i);
    }
  }

  /** Slots are write-once under any interleaving. */
  lemma StepGrows(s: State, s': State, c: nat)
    requires Inv(s) && IsStep(s, s', c)
    ensures CellsGrow(s, s')
  {
    forall b: nat, i: nat | b < BUCKET_SIZE && i < BUCKET_LENGTH ensures Grows(s.cells[b][i], s'.cells[b][i]) {
      assert CellStep(s, s', c, b, i) && SlotOk(s, b, i) && CallOk(s, c);
    }
  }

  lemma StepKeepsPrefix(s: State, s': State, c: nat, b: nat)
    requires Inv(s) && IsStep(s, s', c) && b < BUCKET_SIZE
    ensures Prefix(s'.cells[b])
  {
    assert Prefix(s.cells[b]) && CallOk(s, c);
    forall i: nat, j: nat | i < j < BUCKET_LENGTH && s'.cells[b][j].key != NULL ensures s'.cells[b][i].key != NULL {
      assert CellStep(s, s', c, b, i) && CellStep(s, s', c, b, j);
    }
  }

  lemma UnclaimedUnheld(s: State, b: nat, i: nat, d: nat)
    requires Inv(s) && b < BUCKET_SIZE && i < BUCKET_LENGTH && Holds(s, d, b, i)
    ensures s.cells[b][i].key != NULL
  {
    assert CallOk(s, d) && s.ops[d].key != NULL;
  }

  lemma StepKeepsHolder(s: State, s': State, c: nat, b: nat, i: nat)
    requires Inv(s) && IsStep(s, s', c) && b < BUCKET_SIZE && i < BUCKET_LENGTH && s'.cells[b][i].key != NULL
    ensures exists d: nat :: Holds(s', d, b, i)
  {
    assert CellStep(s, s', c, b, i) && SlotOk(s, b, i) && CallOk(s, c);
    if s.cells[b][i].key != NULL {
      var d: nat :| Holds(s, d, b, i);
      assert Holds(s', d, b, i);
    } else {
      assert Holds(s', c, b, i);
    }
  }

  lemma StepKeepsSlot(s: State, s': State, c: nat, b: nat, i: nat)
    requires Inv(s) && IsStep(s, s', c) && b < BUCKET_SIZE && i < BUCKET_LENGTH
    ensures SlotOk(s', b, i)
  {
    if s'.cells[b][i].key != NULL {
      StepKeepsHolder(s, s', c, b, i);
    } else {
      assert CellStep(s, s', c, b, i) && SlotOk(s, b, i) && CallOk(s, c);
    }
    forall d: nat, e: nat | Holds(s', d, b, i) && Holds(s', e, b, i) ensures d == e {
      HeldBefore(s, s', c, b, i, d);
      HeldBefore(s, s', c, b, i, e);
      assert SlotOk(s, b, i);
    }
  }

  /** Whoever holds a slot held it before, or has just claimed it when nobody held it. */
  lemma HeldBefore(s: State, s': State, c: nat, b: nat, i: nat, d: nat)
    requires Inv(s) && IsStep(s, s', c) && b < BUCKET_SIZE && i < BUCKET_LENGTH && Holds(s', d, b, i)
    ensures Holds(s, d, b, i) || (d == c && s.cells[b][i].key == NULL && forall e: nat :: !Holds(s, e, b, i))
  {
    assert CellStep(s, s', c, b, i);
    if s.cells[b][i].key == NULL {
      forall e: nat | Holds(s, e, b, i) ensures false { UnclaimedUnheld(s, b, i, e); }
    }
  }

  lemma WriterStaysOk(s: State, c: nat)
    requires Shaped(s) && c < |s.ops| && CallOk(s, c) && AtOp(s.ops[c], s.pc[c]) && Shaped(Next(s, c))
    requires match s.pc[c]
             case PutCas(i) => SlotOk(s, s.home[c], i)
             case PutStore(i) => true
             case _ => false
    ensures CallOk(Next(s, c), c)
  {
  }

  lemma ReaderStaysOk(s: State, c: nat)
    requires Shaped(s) && c < |s.ops| && CallOk(s, c) && AtOp(s.ops[c], s.pc[c]) && Shaped(Next(s, c))
    requires !s.pc[c].PutCas? && !s.pc[c].PutStore?
    ensures CallOk(Next(s, c), c)
  {
  }

  lemma MoverStaysOk(s: State, c: nat)
    requires Inv(s) && c < |s.ops| && IsStep(s, Next(s, c), c)
    ensures CallOk(Next(s, c), c)
  {
    assert CallOk(s, c) && AtOp(s.ops[c], s.pc[c]);
    match s.pc[c]
    case PutCas(i) =>
      assert SlotOk(s, s.home[c], i);
      WriterStaysOk(s, c);
    case PutStore(i) => WriterStaysOk(s, c);
    case _ => ReaderStaysOk(s, c);
  }

  lemma OtherStaysOk(s: State, s': State, c: nat, d: nat)
    requires Inv(s) && IsStep(s, s', c) && d < |s.ops| && d != c && CellsGrow(s, s')
    ensures CallOk(s', d)
  {
    assert CallOk(s, d);
    if s.pc[d].PutStore? || s.pc[d].PutDone? {
      var b, i := s.home[d], s.pc[d].i;
      assert SlotOk(s, b, i) && CellStep(s, s', c, b, i) && Holds(s, d, b, i);
      assert !Holds(s, c, b, i);
    }
  }

  lemma StepKeepsInv(s: State, c: nat)
    requires Inv(s) && c < |s.ops|
    ensures Inv(Next(s, c))
  {
    var s' := Next(s, c);
    NextIsStep(s, c);
    StepGrows(s, s', c);
    forall b: nat | b < BUCKET_SIZE ensures Prefix(s'.cells[b]) { StepKeepsPrefix(s, s', c, b); }
    forall d: nat | d < |s.ops| ensures CallOk(s', d) {
      if d == c { MoverStaysOk(s, c); } else { OtherStaysOk(s, s', c, d); }
    }
    forall b: nat, i: nat | b < BUCKET_SIZE && i < BUCKET_LENGTH ensures SlotOk(s', b, i) {
      StepKeepsSlot(s, s', c, b, i);
    }
  }

  // ----- runs

  /** `states` is the run in which the calls `schedule` move one after the other, from an empty table. */
  ghost predicate IsRun(ops: seq<Op>, states: seq<State>, schedule: seq<nat>) {
    && AllGiven(ops)
    && |states| == |schedule| + 1
    && states[0] == Init(ops)
    && forall n :: 0 <= n < |schedule| ==> StepsAt(ops, states, schedule, n)
  }

  ghost predicate StepsAt(ops: seq<Op>, states: seq<State>, schedule: seq<nat>, n: nat)
    requires |states| == |schedule| + 1 && n < |schedule|
  {
    && schedule[n] < |ops| && states[n].ops == ops && Shaped(states[n])
    && states[n + 1] == Next(states[n], schedule[n])
  }

  lemma {:induction false} RunInv(ops: seq<Op>, states: seq<State>, schedule: seq<nat>, n: nat)
    requires IsRun(ops, states, schedule) && n <= |schedule|
    ensures Inv(states[n]) && states[n].ops == ops
  {
    if n == 0 {
      InitInv(ops);
    } else {
      RunInv(ops, states, schedule, n - 1);
      assert StepsAt(ops, states, schedule, n - 1);
      StepKeepsInv(states[n - 1], schedule[n - 1]);
      NextIsStep(states[n - 1], schedule[n - 1]);
    }
  }

  lemma RunStep(ops: seq<Op>, states: seq<State>, schedule: seq<nat>, n: nat)
    requires IsRun(ops, states, schedule) && n < |schedule|
    ensures Inv(states[n]) && Inv(states[n + 1]) && IsStep(states[n], states[n + 1], schedule[n])
    ensures states[n].ops == ops && CellsGrow(states[n], states[n + 1])
  {
    RunInv(ops, states, schedule, n);
    RunInv(ops, states, schedule, n + 1);
    assert StepsAt(ops, states, schedule, n);
    NextIsStep(states[n], schedule[n]);
    StepGrows(states[n], states[n + 1], schedule[n]);
  }

  lemma SlotGrowsAt(ops: seq<Op>, states: seq<State>, schedule: seq<nat>, n: nat, b: nat, i: nat)
    requires IsRun(ops, states, schedule) && n < |schedule| && b < BUCKET_SIZE && i < BUCKET_LENGTH
    ensures Shaped(states[n]) && Shaped(states[n + 1]) && Grows(states[n].cells[b][i], states[n + 1].cells[b][i])
  {
    RunStep(ops, states, schedule, n);
  }

  lemma {:induction false} SlotGrows(ops: seq<Op>, states: seq<State>, schedule: seq<nat>, m: nat, n: nat,
                                     b: nat, i: nat)
    requires IsRun(ops, states, schedule) && m <= n <= |schedule| && b < BUCKET_SIZE && i < BUCKET_LENGTH
    ensures Shaped(states[m]) && Shaped(states[n]) && Grows(states[m].cells[b][i], states[n].cells[b][i])
  {
    if m == n {
      RunInv(ops, states, schedule, n);
    } else {
      SlotGrows(ops, states, schedule, m, n - 1, b, i);
      SlotGrowsAt(ops, states, schedule, n - 1, b, i);
    }
  }

  /** Over a whole run a slot that has a key keeps it, and a slot that has a value keeps it. */
  lemma SlotsAreWriteOnce(ops: seq<Op>, states: seq<State>, schedule: seq<nat>, m: nat, n: nat, b: nat, i: nat)
    requires IsRun(ops, states, schedule) && m <= n <= |schedule| && b < BUCKET_SIZE && i < BUCKET_LENGTH
    ensures Inv(states[m]) && Inv(states[n]) && Grows(states[m].cells[b][i], states[n].cells[b][i])
  {
    RunInv(ops, states, schedule, m);
    RunInv(ops, states, schedule, n);
    SlotGrows(ops, states, schedule, m, n, b, i);
  }

  /** In every state of a run the claimed slots of a bucket come first, and a put has returned -1 only
      if all ten slots of its bucket are taken. */
  lemma PrefixAndFull(ops: seq<Op>, states: seq<State>, schedule: seq<nat>, n: nat, c: nat)
    requires IsRun(ops, states, schedule) && n <= |schedule| && c < |ops|
    ensures Shaped(states[n]) && states[n].ops == ops
    ensures forall b :: 0 <= b < BUCKET_SIZE ==> Prefix(states[n].cells[b])
    ensures states[n].pc[c] == PutFull ==> AllClaimed(states[n].cells[states[n].home[c]], BUCKET_LENGTH)
  {
    RunInv(ops, states, schedule, n);
    assert CallOk(states[n], c);
  }

  /** Extend a run by a step of call `c`. */
  lemma Then(ops: seq<Op>, states: seq<State>, schedule: seq<nat>, c: nat, s: State)
      returns (states': seq<State>, schedule': seq<nat>)
    requires IsRun(ops, states, schedule) && c < |ops|
    requires Shaped(states[|schedule|]) && states[|schedule|].ops == ops && Next(states[|schedule|], c) == s
    ensures IsRun(ops, states', schedule') && |schedule'| == |schedule| + 1 && states'[|schedule'|] == s
  {
    states', schedule' := states + [s], schedule + [c];
    forall n | 0 <= n < |schedule'| ensures StepsAt(ops, states', schedule', n) {
      if n < |schedule| { assert StepsAt(ops, states, schedule, n); }
    }
  }

  // ----- the map that the table stands for

  /** Each key is put by one call only. */
  predicate SinglePut(ops: seq<Op>) {
    forall c, d :: 0 <= c < |ops| && 0 <= d < |ops| && ops[c].Put? && ops[d].Put? && ops[c].key == ops[d].key ==> c == d
  }

  predicate HasClaimed(s: State, c: nat) { c < |s.pc| && (s.pc[c].PutStore? || s.pc[c].PutDone?) }

  /** The abstract map after a run up to `s`: a key has the value of the put that claimed a slot for it. */
  ghost predicate Maps(s: State, key: Address, value: Address) {
    exists c: nat :: c < |s.ops| && HasClaimed(s, c) && s.ops[c] == Put(key, value)
  }

  ghost predicate Absent(s: State, key: Address) { forall value :: !Maps(s, key, value) }

  /** A get that is under way, and whose key some put had claimed when it began: it will still meet the
      slot. */
  ghost predicate WillFind(s: State, c: nat)
    requires Shaped(s) && c < |s.ops|
  {
    match s.pc[c]
    case GetRead(i) => exists j: nat :: i <= j < BUCKET_LENGTH && s.cells[s.home[c]][j].key == s.ops[c].key
    case GetSpin(_) => true
    case GetDone(r) => r != NULL
    case _ => true
  }

  /** A claimed key sits in some slot of its bucket. */
  lemma ClaimedKeyHasSlot(s: State, c: nat, key: Address, value: Address) returns (j: nat)
    requires Inv(s) && c < |s.ops| && s.ops[c].key == key && Maps(s, key, value)
    ensures j < BUCKET_LENGTH && s.cells[s.home[c]][j].key == key
  {
    var d: nat :| d < |s.ops| && HasClaimed(s, d) && s.ops[d] == Put(key, value);
    assert CallOk(s, d) && s.home[c] == s.home[d];
    j := s.pc[d].i;
  }

  lemma StepKeepsWillFind(s: State, c: nat, d: nat)
    requires Inv(s) && c < |s.ops| && d < |s.ops| && s.ops[d].Get? && s.pc[d] != Ready && WillFind(s, d)
    requires IsStep(s, Next(s, c), c) && CellsGrow(s, Next(s, c))
    ensures WillFind(Next(s, c), d)
  {
    var s' := Next(s, c);
    assert CallOk(s, d) && AtOp(s.ops[d], s.pc[d]);
    if s.pc[d].GetRead? {
      var j: nat :| s.pc[d].i <= j < BUCKET_LENGTH && s.cells[s.home[d]][j].key == s.ops[d].key;
      assert s.ops[d].key != NULL;
      assert Grows(s.cells[s.home[d]][j], s'.cells[s.home[d]][j]);
    }
  }

  /** What a get has returned is the value of the put that claimed its key. */
  ghost predicate Truthful(s: State, c: nat)
    requires c < |s.ops| && c < |s.pc|
  {
    s.pc[c].GetDone? && s.pc[c].r != NULL ==> Maps(s, s.ops[c].key, s.pc[c].r)
  }

  lemma MapGrows(s: State, s': State, c: nat, key: Address, value: Address)
    requires Inv(s) && IsStep(s, s', c) && Maps(s, key, value)
    ensures Maps(s', key, value)
  {
    var d: nat :| d < |s.ops| && HasClaimed(s, d) && s.ops[d] == Put(key, value);
    assert CellStep(s, s', c, s.home[d], s.pc[d].i) && AtOp(s.ops[d], s.pc[d]);
    assert Holds(s, d, s.home[d], s.pc[d].i);
    assert HasClaimed(s', d);
  }

  lemma StepKeepsTruthful(s: State, c: nat, d: nat)
    requires Inv(s) && c < |s.ops| && d < |s.ops| && Truthful(s, d) && IsStep(s, Next(s, c), c)
    ensures Truthful(Next(s, c), d)
  {
    var s' := Next(s, c);
    if s'.pc[d].GetDone? && s'.pc[d].r != NULL {
      if s.pc[d] == s'.pc[d] {
        MapGrows(s, s', c, s.ops[d].key, s.pc[d].r);
      } else {
        assert CallOk(s, d) && AtOp(s.ops[d], s.pc[d]);
        PublishedValueIsMapped(s, d);
        MapGrows(s, s', c, s.ops[d].key, s'.pc[d].r);
      }
    }
  }

  lemma PublishedValueIsMapped(s: State, d: nat)
    requires Inv(s) && d < |s.ops| && s.pc[d].GetSpin? && s.pc[d].i < BUCKET_LENGTH
    requires s.cells[s.home[d]][s.pc[d].i].value != NULL
    ensures Maps(s, s.ops[d].key, s.cells[s.home[d]][s.pc[d].i].value)
  {
    var b, i := s.home[d], s.pc[d].i;
    assert CallOk(s, d) && SlotOk(s, b, i);
    var e: nat :| Holds(s, e, b, i);
    assert CallOk(s, e);
    assert HasClaimed(s, e) && AtOp(s.ops[e], s.pc[e]);
  }

  lemma TruthfulAt(ops: seq<Op>, states: seq<State>, schedule: seq<nat>, n: nat, c: nat)
    requires IsRun(ops, states, schedule) && n < |schedule| && c < |ops|
    requires Shaped(states[n]) && states[n].ops == ops && Truthful(states[n], c)
    ensures Shaped(states[n + 1]) && states[n + 1].ops == ops && Truthful(states[n + 1], c)
  {
    RunStep(ops, states, schedule, n);
    assert StepsAt(ops, states, schedule, n);
    StepKeepsTruthful(states[n], schedule[n], c);
  }

  lemma {:induction false} RunTruthful(ops: seq<Op>, states: seq<State>, schedule: seq<nat>, n: nat, c: nat)
    requires IsRun(ops, states, schedule) && n <= |schedule| && c < |ops|
    ensures Shaped(states[n]) && states[n].ops == ops && Truthful(states[n], c)
  {
    if n == 0 {
      RunInv(ops, states, schedule, 0);
    } else {
      RunTruthful(ops, states, schedule, n - 1, c);
      TruthfulAt(ops, states, schedule, n - 1, c);
    }
  }

  lemma BeginsToFind(ops: seq<Op>, states: seq<State>, schedule: seq<nat>, n: nat, c: nat, value: Address)
    requires IsRun(ops, states, schedule) && n < |schedule| && c < |ops|
    requires Shaped(states[n]) && states[n].ops == ops
    requires schedule[n] == c && ops[c].Get? && states[n].pc[c] == Ready && Maps(states[n], ops[c].key, value)
    ensures Shaped(states[n + 1]) && states[n + 1].ops == ops
    ensures states[n + 1].pc[c] != Ready && WillFind(states[n + 1], c)
  {
    RunStep(ops, states, schedule, n);
    assert StepsAt(ops, states, schedule, n);
    var j := ClaimedKeyHasSlot(states[n], c, ops[c].key, value);
  }

  lemma FindsAt(ops: seq<Op>, states: seq<State>, schedule: seq<nat>, n: nat, c: nat)
    requires IsRun(ops, states, schedule) && n < |schedule| && c < |ops|
    requires Shaped(states[n]) && states[n].ops == ops
    requires ops[c].Get? && states[n].pc[c] != Ready && WillFind(states[n], c)
    ensures Shaped(states[n + 1]) && states[n + 1].ops == ops
    ensures states[n + 1].pc[c] != Ready && WillFind(states[n + 1], c)
  {
    RunStep(ops, states, schedule, n);
    assert StepsAt(ops, states, schedule, n);
    StepKeepsWillFind(states[n], schedule[n], c);
  }

  lemma {:induction false} RunWillFind(ops: seq<Op>, states: seq<State>, schedule: seq<nat>, begin: nat, n: nat,
                                      c: nat, value: Address)
    requires IsRun(ops, states, schedule) && begin < n <= |schedule| && c < |ops|
    requires Shaped(states[begin]) && states[begin].ops == ops
    requires schedule[begin] == c && ops[c].Get? && states[begin].pc[c] == Ready
    requires Maps(states[begin], ops[c].key, value)
    ensures Shaped(states[n]) && states[n].ops == ops && states[n].pc[c] != Ready && WillFind(states[n], c)
  {
    if n == begin + 1 {
      BeginsToFind(ops, states, schedule, begin, c, value);
    } else {
      RunWillFind(ops, states, schedule, begin, n - 1, c, value);
      FindsAt(ops, states, schedule, n - 1, c);
    }
  }

  /** Gets linearize.  Let a get begin at step `begin` and be over at `n`.  If it returns NULL, its key
      was absent from the map when it began; if it returns a value, the map has that value for its key
      when it ends.  Either way the answer is the map's at a moment of the call. */
  lemma GetLinearizes(ops: seq<Op>, states: seq<State>, schedule: seq<nat>, begin: nat, n: nat, c: nat)
    requires IsRun(ops, states, schedule) && begin < n <= |schedule| && c < |ops|
    requires Shaped(states[begin]) && states[begin].ops == ops
    requires schedule[begin] == c && ops[c].Get? && states[begin].pc[c] == Ready
    requires Shaped(states[n]) && states[n].ops == ops && states[n].pc[c].GetDone?
    ensures states[n].pc[c].r == NULL ==> Absent(states[begin], ops[c].key)
    ensures states[n].pc[c].r != NULL ==> Maps(states[n], ops[c].key, states[n].pc[c].r)
  {
    RunTruthful(ops, states, schedule, n, c);
    if states[n].pc[c].r == NULL {
      forall value ensures !Maps(states[begin], ops[c].key, value) {
        if Maps(states[begin], ops[c].key, value) {
          RunWillFind(ops, states, schedule, begin, n, c, value);
        }
      }
    }
  }

  /** With single puts, a get that begins after a put of its key has returned yields the value put. */
  lemma GetAfterPut(ops: seq<Op>, states: seq<State>, schedule: seq<nat>, begin: nat, n: nat, c: nat, d: nat)
    requires IsRun(ops, states, schedule) && SinglePut(ops) && begin < n <= |schedule| && c < |ops| && d < |ops|
    requires Shaped(states[begin]) && states[begin].ops == ops
    requires schedule[begin] == c && ops[c].Get? && states[begin].pc[c] == Ready
    requires ops[d].Put? && ops[d].key == ops[c].key && states[begin].pc[d].PutDone?
    requires Shaped(states[n]) && states[n].ops == ops && states[n].pc[c].GetDone?
    ensures states[n].pc[c].r == ops[d].impl
  {
    assert HasClaimed(states[begin], d);
    assert Maps(states[begin], ops[c].key, ops[d].impl);
    GetLinearizes(ops, states, schedule, begin, n, c);
  }

  /** A get spins on a slot without a value only while the put that claimed it has yet to store. */
  lemma SpinnerHasPublisher(s: State, c: nat)
    requires Inv(s) && c < |s.ops| && s.pc[c].GetSpin? && Next(s, c) == s
    ensures exists d: nat :: d < |s.ops| && s.pc[d] == PutStore(s.pc[c].i) && s.ops[d].key == s.ops[c].key
  {
    var b, i := s.home[c], s.pc[c].i;
    assert AtOp(s.ops[c], s.pc[c]) && CallOk(s, c) && SlotOk(s, b, i);
    var d: nat :| Holds(s, d, b, i);
    assert CallOk(s, d) && AtOp(s.ops[d], s.pc[d]);
  }
}

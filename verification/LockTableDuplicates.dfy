/**
 Duplicate puts are not detected: whenever two calls put the same mutex, both can return 0, each with a
 slot of its own.
 */
module LockTableDuplicates {
  import opened LockTable
  import opened LockTableConcurrent

  /** Calls `e` and `o` put into bucket `h`, whose first two slots are `x` and `y`, and are at `p` and `q`. */
  ghost predicate TwoPuts(s: State, ops: seq<Op>, h: nat, x: Cell, y: Cell, e: nat, p: Pc, o: nat, q: Pc) {
    && Shaped(s) && s.ops == ops && h < BUCKET_SIZE
    && e < |ops| && o < |ops| && e != o && ops[e].Put? && ops[o].Put?
    && s.home[e] == h && s.home[o] == h && s.pc[e] == p && s.pc[o] == q
    && s.cells[h][0] == x && s.cells[h][1] == y
  }

  /** A put's steps on the first two slots of its bucket. */
  function StepTwo(op: Op, x: Cell, y: Cell, p: Pc): (Cell, Cell, Pc) {
    match p
    case Ready => (x, y, PutRead(0))
    case PutRead(i) => (x, y, if (if i == 0 then x else y).key == NULL then PutCas(i) else PutRead(i + 1))
    case PutCas(i) => if i == 0 then (x.(key := op.key), y, PutStore(0)) else (x, y.(key := op.key), PutStore(1))
    case PutStore(i) =>
      if op.Get? then (x, y, p)
      else if i == 0 then (x.(value := op.impl), y, PutDone(0)) else (x, y.(value := op.impl), PutDone(1))
    case _ => (x, y, p)
  }

  /** A put that finds one of the first two slots free. */
  predicate OnTrack(x: Cell, y: Cell, p: Pc) {
    match p
    case Ready => true
    case PutRead(i) => i == 0 || (i == 1 && y.key == NULL)
    case PutCas(i) => (i == 0 && x.key == NULL) || (i == 1 && y.key == NULL)
    case PutStore(i) => i < 2
    case _ => false
  }

  lemma NextOfTwo(s: State, ops: seq<Op>, h: nat, x: Cell, y: Cell, e: nat, p: Pc, o: nat, q: Pc)
    requires TwoPuts(s, ops, h, x, y, e, p, o, q) && OnTrack(x, y, p)
    ensures var (x', y', p') := StepTwo(ops[e], x, y, p);
            TwoPuts(Next(s, e), ops, h, x', y', e, p', o, q)
  {
    NextIsShaped(s, e);
  }

  lemma ThenTwo(ops: seq<Op>, states: seq<State>, schedule: seq<nat>, h: nat, x: Cell, y: Cell, e: nat, p: Pc, o: nat, q: Pc)
      returns (states': seq<State>, schedule': seq<nat>)
    requires IsRun(ops, states, schedule)
    requires TwoPuts(states[|schedule|], ops, h, x, y, e, p, o, q) && OnTrack(x, y, p)
    ensures IsRun(ops, states', schedule')
    ensures var (x', y', p') := StepTwo(ops[e], x, y, p);
            TwoPuts(states'[|schedule'|], ops, h, x', y', e, p', o, q)
  {
    NextOfTwo(states[|schedule|], ops, h, x, y, e, p, o, q);
    states', schedule' := Then(ops, states, schedule, e, Next(states[|schedule|], e));
  }

  const FREE_SLOT := Cell(NULL, NULL)

  /** The first put claims the first slot. */
  lemma FirstPuts(ops: seq<Op>, c: nat, d: nat) returns (states: seq<State>, schedule: seq<nat>)
    requires AllGiven(ops) && Duplicates(ops, c, d)
    ensures IsRun(ops, states, schedule)
    ensures TwoPuts(states[|schedule|], ops, MyHash(ops[c].key), Cell(ops[c].key, ops[c].impl), FREE_SLOT,
                    c, PutDone(0), d, Ready)
  {
    var h, x, y := MyHash(ops[c].key), FREE_SLOT, FREE_SLOT;
    states, schedule := [Init(ops)], [];
    InitInv(ops);
    states, schedule := ThenTwo(ops, states, schedule, h, x, y, c, Ready, d, Ready);
    states, schedule := ThenTwo(ops, states, schedule, h, x, y, c, PutRead(0), d, Ready);
    states, schedule := ThenTwo(ops, states, schedule, h, x, y, c, PutCas(0), d, Ready);
    x := Cell(ops[c].key, NULL);
    states, schedule := ThenTwo(ops, states, schedule, h, x, y, c, PutStore(0), d, Ready);
  }

  /** The second, which starts when the first is over, passes over the slot with its own key in it and
      claims the next one. */
  lemma SecondPuts(ops: seq<Op>, c: nat, d: nat) returns (states: seq<State>, schedule: seq<nat>)
    requires AllGiven(ops) && Duplicates(ops, c, d)
    ensures IsRun(ops, states, schedule)
    ensures TwoPuts(states[|schedule|], ops, MyHash(ops[c].key), Cell(ops[c].key, ops[c].impl),
                    Cell(ops[d].key, ops[d].impl), d, PutDone(1), c, PutDone(0))
  {
    states, schedule := FirstPuts(ops, c, d);
    var h, x, y := MyHash(ops[c].key), Cell(ops[c].key, ops[c].impl), FREE_SLOT;
    states, schedule := ThenTwo(ops, states, schedule, h, x, y, d, Ready, c, PutDone(0));
    states, schedule := ThenTwo(ops, states, schedule, h, x, y, d, PutRead(0), c, PutDone(0));
    states, schedule := ThenTwo(ops, states, schedule, h, x, y, d, PutRead(1), c, PutDone(0));
    states, schedule := ThenTwo(ops, states, schedule, h, x, y, d, PutCas(1), c, PutDone(0));
    y := Cell(ops[d].key, NULL);
    states, schedule := ThenTwo(ops, states, schedule, h, x, y, d, PutStore(1), c, PutDone(0));
  }

  predicate Duplicates(ops: seq<Op>, c: nat, d: nat) {
    && c < |ops| && d < |ops| && c != d
    && ops[c].Put? && ops[d].Put? && ops[c].key == ops[d].key
  }

  /** Two puts of one key have both returned 0. */
  ghost predicate BothSucceed(ops: seq<Op>, states: seq<State>, schedule: seq<nat>, c: nat, d: nat) {
    && IsRun(ops, states, schedule) && Duplicates(ops, c, d)
    && |states[|schedule|].pc| == |ops|
    && states[|schedule|].pc[c].PutDone? && states[|schedule|].pc[d].PutDone?
  }

  /** Only one put of a mutex succeeds, as litl/src/interpose.c:157-161 has it, in every run of some calls
      exactly if no two of the calls put the same mutex: the table itself refuses none.  It does not take
      concurrency, the two puts may follow one another. */
  lemma BothSucceedIff(ops: seq<Op>)
    requires AllGiven(ops)
    ensures (exists states: seq<State>, schedule: seq<nat>, c: nat, d: nat :: BothSucceed(ops, states, schedule, c, d))
            <==> !SinglePut(ops)
  {
    if !SinglePut(ops) {
      var c, d :| 0 <= c < |ops| && 0 <= d < |ops| && ops[c].Put? && ops[d].Put? && ops[c].key == ops[d].key && c != d;
      var states, schedule := SecondPuts(ops, c, d);
      assert BothSucceed(ops, states, schedule, c, d);
    }
  }
}

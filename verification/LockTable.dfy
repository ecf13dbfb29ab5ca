/**
 The interposition table that maps a pthread mutex to its lock: 40960 buckets of ten slots, filled
 from the front and never emptied (litl/src/interpose.c, lines 72-178), used by one thread at a time.
 */
module LockTable {

  const BUCKET_SIZE := 40960
  const BUCKET_LENGTH := 10

  type Address = bv64

  const NULL: Address := 0

  // ----- the hash

  const MASK: bv64 := 40960 - 1

  function Mix(key: Address): bv64 { ((key >> 4) + (key >> 24)) & MASK }

  lemma MixInRange(key: Address)
    ensures Mix(key) < 40960 && Mix(key) & 0x6000 == 0
  {
  }

  /** `my_hash`: the bucket of an address. */
  function MyHash(key: Address): (h: nat)
    ensures h < BUCKET_SIZE
  {
    MixInRange(key);
    Mix(key) as nat
  }

  /** The bucket numbers with bits 13 and 14 clear: 16384 of them. */
  predicate Reachable(b: bv64) { b < 40960 && b & 0x6000 == 0 }

  /** 40960 is no power of two, so `& (BUCKET_SIZE - 1)` is no modulus: of the 40960 buckets, an address
      can hash only to those whose bits 13 and 14 are 0, and to each of them one does. */
  lemma HashReachesExactly(b: bv64)
    ensures (exists key: Address :: Mix(key) == b) <==> Reachable(b)
  {
    forall key: Address ensures Reachable(Mix(key)) { MixInRange(key); }
    if Reachable(b) { assert Mix(b << 4) == b; }
  }

  /** The hash adds the address's bits from 24 on to its bits 4 to 23, and keeps those below bit 13 and bit 15
      of the sum. */
  lemma HashAddsFields(high: bv64, low: bv64, last: bv64)
    requires high < 0x100_0000_0000 && low < 0x10_0000 && last < 16
    ensures Mix((high << 24) | (low << 4) | last) == (high + low) & 0x9FFF
  {
  }

  // ----- specification: buckets as lists, the table as a map

  datatype Slot = Slot(key: Address, value: Address)

  /** The first value stored for `key`. */
  function Find(slots: seq<Slot>, key: Address): Address {
    if slots == [] then NULL
    else if slots[0].key == key then slots[0].value
    else Find(slots[1..], key)
  }

  predicate GoodBucket(slots: seq<Slot>, b: nat) {
    && |slots| <= BUCKET_LENGTH
    && forall i :: 0 <= i < |slots| ==> slots[i].key != NULL && slots[i].value != NULL && MyHash(slots[i].key) == b
  }

  /** Each bucket's claimed slots, in order. */
  type Table = t: seq<seq<Slot>> | |t| == BUCKET_SIZE witness seq(BUCKET_SIZE, _ => [])

  predicate Good(t: Table) { forall b :: 0 <= b < BUCKET_SIZE ==> GoodBucket(t[b], b) }

  function Empty(): Table { seq(BUCKET_SIZE, _ => []) }

  function Get(t: Table, mutex: Address): Address { Find(t[MyHash(mutex)], mutex) }

  predicate Full(t: Table, mutex: Address) { |t[MyHash(mutex)]| >= BUCKET_LENGTH }

  function AppendAt(t: Table, h: nat, s: Slot): Table
    requires h < BUCKET_SIZE
  {
    t[h := t[h] + [s]]
  }

  function Append(t: Table, mutex: Address, impl: Address): Table {
    AppendAt(t, MyHash(mutex), Slot(mutex, impl))
  }

  lemma {:induction false} FindInAppended(slots: seq<Slot>, s: Slot, key: Address)
    requires s.value != NULL && forall i :: 0 <= i < |slots| ==> slots[i].value != NULL
    ensures Find(slots + [s], key) == if Find(slots, key) == NULL && s.key == key then s.value else Find(slots, key)
  {
    if slots != [] {
      assert (slots + [s])[1..] == slots[1..] + [s];
      FindInAppended(slots[1..], s, key);
    }
  }

  lemma AppendKeepsGood(t: Table, h: nat, s: Slot)
    requires Good(t) && h < BUCKET_SIZE && |t[h]| < BUCKET_LENGTH
    requires s.key != NULL && s.value != NULL && MyHash(s.key) == h
    ensures Good(AppendAt(t, h, s))
  {
    forall b | 0 <= b < BUCKET_SIZE ensures GoodBucket(AppendAt(t, h, s)[b], b) {
      assert GoodBucket(t[b], b);
    }
  }

  lemma FindAfterAppend(t: Table, h: nat, s: Slot, b: nat, key: Address)
    requires Good(t) && h < BUCKET_SIZE && b < BUCKET_SIZE && s.value != NULL && (key == s.key ==> b == h)
    ensures Find(AppendAt(t, h, s)[b], key) == if key == s.key && Find(t[b], key) == NULL then s.value else Find(t[b], key)
  {
    assert GoodBucket(t[b], b);
    if b == h { FindInAppended(t[h], s, key); }
  }

  /** Appending is insert-if-absent on the map that the table stands for: a first value is stored, a
      later one for the same mutex takes a slot but is never found. */
  lemma PutInsertsIfAbsent(t: Table, mutex: Address, impl: Address, other: Address)
    requires Good(t) && mutex != NULL && impl != NULL && !Full(t, mutex)
    ensures Good(Append(t, mutex, impl))
    ensures Get(Append(t, mutex, impl), other) ==
            if other == mutex && Get(t, mutex) == NULL then impl else Get(t, other)
  {
    AppendKeepsGood(t, MyHash(mutex), Slot(mutex, impl));
    FindAfterAppend(t, MyHash(mutex), Slot(mutex, impl), MyHash(other), other);
  }

  // ----- the table

  class PthreadLockTable {
    const keys: array2<Address>
    const values: array2<Address>
    ghost var table: Table

    predicate Shaped() {
      && keys != values
      && keys.Length0 == values.Length0 == BUCKET_SIZE && keys.Length1 == values.Length1 == BUCKET_LENGTH
    }

    /** The claimed slots of a bucket come first, as `table` lists them; the rest have no key. */
    ghost predicate SlotHolds(b: nat, i: nat)
      requires Shaped() && b < BUCKET_SIZE && i < BUCKET_LENGTH
      reads this, keys, values
    {
      if i < |table[b]| then Slot(keys[b, i], values[b, i]) == table[b][i] else keys[b, i] == NULL
    }

    ghost predicate Valid()
      reads this, keys, values
    {
      && Shaped()
      && Good(table)
      && forall b: nat, i: nat :: b < BUCKET_SIZE && i < BUCKET_LENGTH ==> SlotHolds(b, i)
    }

    constructor ()
      ensures Valid() && fresh(keys) && fresh(values) && table == Empty()
    {
      keys := new Address[BUCKET_SIZE, BUCKET_LENGTH]((_, _) => NULL);
      values := new Address[BUCKET_SIZE, BUCKET_LENGTH]((_, _) => NULL);
      table := Empty();
    }

    lemma FreeSlotIsLast(h: nat, i: nat)
      requires Valid() && h < BUCKET_SIZE && i < BUCKET_LENGTH && i <= |table[h]|
      ensures keys[h, i] == NULL <==> i == |table[h]|
    {
      assert SlotHolds(h, i) && GoodBucket(table[h], h);
    }

    /** `hash_put`. */
    method HashPut(mutex: Address, impl: Address) returns (r: int)
      requires Valid() && mutex != NULL && impl != NULL
      modifies this, keys, values
      ensures Valid()
      ensures r == if Full(old(table), mutex) then -1 else 0
      ensures table == if r == 0 then Append(old(table), mutex, impl) else old(table)
    {
      var h := MyHash(mutex);
      for i := 0 to BUCKET_LENGTH
        invariant Valid() && table == old(table)
        invariant i <= |table[h]|
      {
        FreeSlotIsLast(h, i);
        if keys[h, i] == NULL {
          AppendKeepsGood(table, h, Slot(mutex, impl));
          label Free:
          keys[h, i] := mutex;
          values[h, i] := impl;
          table := Append(table, mutex, impl);
          forall b: nat, j: nat | b < BUCKET_SIZE && j < BUCKET_LENGTH ensures SlotHolds(b, j) {
            assert old@Free(SlotHolds(b, j));
          }
          return 0;
        }
      }
      return -1;
    }

    /** `hash_get`.  With one thread at a time no claimed slot is without its value, so the wait for the
        value ends at once. */
    method HashGet(mutex: Address) returns (impl: Address)
      requires Valid() && mutex != NULL
      ensures impl == Get(table, mutex)
    {
      var h := MyHash(mutex);
      ghost var slots := table[h];
      for i := 0 to BUCKET_LENGTH
        invariant i <= |slots| ==> Find(slots, mutex) == Find(slots[i..], mutex)
        invariant i > |slots| ==> Find(slots, mutex) == NULL
      {
        assert SlotHolds(h, i);
        if keys[h, i] == mutex {
          return values[h, i];
        }
      }
      return NULL;
    }

    /** `ht_lock_create`, with the implementation that it allocates; NULL stands for the exit that the
        process makes on a full bucket. */
    method HtLockCreate(mutex: Address, impl: Address) returns (r: Address)
      requires Valid() && mutex != NULL && impl != NULL
      modifies this, keys, values
      ensures Valid() && table == After(old(table), Create(mutex, impl))
      ensures r == if Full(old(table), mutex) then NULL else impl
    {
      var put := HashPut(mutex, impl);
      r := if put == 0 then impl else NULL;
    }

    /** `ht_lock_get`. */
    method HtLockGet(mutex: Address, impl: Address) returns (r: Address)
      requires Valid() && mutex != NULL && impl != NULL
      modifies this, keys, values
      ensures Valid() && table == After(old(table), Use(mutex, impl))
      ensures r == if Get(old(table), mutex) != NULL then Get(old(table), mutex)
                   else if Full(old(table), mutex) then NULL else impl
    {
      r := HashGet(mutex);
      if r == NULL {
        r := HtLockCreate(mutex, impl);
      }
    }
  }

  // ----- ht_lock_create and ht_lock_get

  /** A call with the implementation that it would allocate: `pthread_mutex_init` always creates,
      every other call looks the mutex up first. */
  datatype Call = Create(mutex: Address, spare: Address) | Use(mutex: Address, spare: Address)

  /** The table after a call; a full bucket ends the process, here the table stays as it is. */
  function After(t: Table, c: Call): Table {
    if (c.Use? && Get(t, c.mutex) != NULL) || Full(t, c.mutex) then t else Append(t, c.mutex, c.spare)
  }

  predicate FindsRoom(t: Table, c: Call) { (c.Use? && Get(t, c.mutex) != NULL) || !Full(t, c.mutex) }

  /** The implementation that a call returns. */
  function Result(t: Table, c: Call): Address {
    if c.Use? && Get(t, c.mutex) != NULL then Get(t, c.mutex) else c.spare
  }

  /** Any sequence of calls, with the tables before, between and after them.  Addresses are not NULL,
      allocations are fresh, and no call finds its bucket full. */
  ghost predicate Healthy(calls: seq<Call>, tables: seq<Table>) {
    && |tables| == |calls| + 1 && tables[0] == Empty()
    && (forall i :: 0 <= i < |calls| ==> CallAt(calls, tables, i))
    && (forall i, j :: 0 <= i < j < |calls| ==> calls[i].spare != calls[j].spare)
  }

  ghost predicate CallAt(calls: seq<Call>, tables: seq<Table>, i: nat)
    requires |tables| == |calls| + 1 && i < |calls|
  {
    && calls[i].mutex != NULL && calls[i].spare != NULL
    && FindsRoom(tables[i], calls[i])
    && tables[i + 1] == After(tables[i], calls[i])
  }

  lemma EmptyTable(mutex: Address)
    ensures Good(Empty()) && Get(Empty(), mutex) == NULL
  {
  }

  lemma AfterKeepsGood(t: Table, c: Call)
    requires Good(t) && c.mutex != NULL && c.spare != NULL
    ensures Good(After(t, c))
  {
    if !Full(t, c.mutex) { AppendKeepsGood(t, MyHash(c.mutex), Slot(c.mutex, c.spare)); }
  }

  /** A call inserts if absent. */
  lemma AfterInsertsIfAbsent(t: Table, c: Call, mutex: Address)
    requires Good(t) && c.mutex != NULL && c.spare != NULL && FindsRoom(t, c)
    ensures Get(After(t, c), mutex) == if c.mutex == mutex && Get(t, mutex) == NULL then c.spare else Get(t, mutex)
  {
    if !Full(t, c.mutex) { PutInsertsIfAbsent(t, c.mutex, c.spare, mutex); }
  }

  lemma {:induction false} TablesStayGood(calls: seq<Call>, tables: seq<Table>, n: nat)
    requires Healthy(calls, tables) && n <= |calls|
    ensures Good(tables[n])
  {
    if n == 0 {
      EmptyTable(NULL);
    } else {
      TablesStayGood(calls, tables, n - 1);
      assert CallAt(calls, tables, n - 1);
      AfterKeepsGood(tables[n - 1], calls[n - 1]);
    }
  }

  /** Is `f` the number of the first call on its mutex? */
  predicate IsFirst(calls: seq<Call>, f: nat)
    requires f < |calls|
  {
    forall j :: 0 <= j < f ==> calls[j].mutex != calls[f].mutex
  }

  /** What the table answers for a mutex is what the first call on that mutex allocated. */
  lemma {:induction false} FirstCallWins(calls: seq<Call>, tables: seq<Table>, n: nat, f: nat)
    requires Healthy(calls, tables) && n <= |calls| && f < |calls| && IsFirst(calls, f)
    ensures Get(tables[n], calls[f].mutex) == if f < n then calls[f].spare else NULL
  {
    if n == 0 {
      EmptyTable(calls[f].mutex);
    } else {
      FirstCallWins(calls, tables, n - 1, f);
      TablesStayGood(calls, tables, n - 1);
      assert CallAt(calls, tables, n - 1) && CallAt(calls, tables, f);
      AfterInsertsIfAbsent(tables[n - 1], calls[n - 1], calls[f].mutex);
    }
  }

  /** Does call `i` take a slot?  A creation always does, a use only if it is the first call on its mutex. */
  predicate TakesSlot(calls: seq<Call>, i: nat)
    requires i < |calls|
  {
    calls[i].Create? || IsFirst(calls, i)
  }

  /** How many of the first `n` calls take a slot in bucket `b`. */
  function SlotsTaken(calls: seq<Call>, n: nat, b: nat): nat
    requires n <= |calls|
  {
    if n == 0 then 0
    else SlotsTaken(calls, n - 1, b) + if MyHash(calls[n - 1].mutex) == b && TakesSlot(calls, n - 1) then 1 else 0
  }

  lemma KnownIffEarlier(calls: seq<Call>, tables: seq<Table>, i: nat)
    requires Healthy(calls, tables) && i < |calls|
    ensures Get(tables[i], calls[i].mutex) != NULL <==> !IsFirst(calls, i)
  {
    var f := First(calls, i);
    assert CallAt(calls, tables, f);
    FirstCallWins(calls, tables, i, f);
  }

  lemma AppendLength(t: Table, h: nat, s: Slot, b: nat)
    requires h < BUCKET_SIZE && b < BUCKET_SIZE
    ensures |AppendAt(t, h, s)[b]| == |t[b]| + if h == b then 1 else 0
  {
  }

  lemma OneMoreTaken(t: Table, c: Call, b: nat, takes: bool)
    requires b < BUCKET_SIZE && FindsRoom(t, c) && (takes <==> c.Create? || Get(t, c.mutex) == NULL)
    ensures |After(t, c)[b]| == |t[b]| + if MyHash(c.mutex) == b && takes then 1 else 0
  {
    AppendLength(t, MyHash(c.mutex), Slot(c.mutex, c.spare), b);
  }

  lemma {:induction false} BucketHoldsTaken(calls: seq<Call>, tables: seq<Table>, n: nat, b: nat)
    requires Healthy(calls, tables) && n <= |calls| && b < BUCKET_SIZE
    ensures |tables[n][b]| == SlotsTaken(calls, n, b)
  {
    if n > 0 {
      BucketHoldsTaken(calls, tables, n - 1, b);
      assert CallAt(calls, tables, n - 1);
      KnownIffEarlier(calls, tables, n - 1);
      OneMoreTaken(tables[n - 1], calls[n - 1], b, TakesSlot(calls, n - 1));
    }
  }

  /** When the table fails: the next call finds no room if and only if it would take a slot and ten earlier
      calls have taken one in its bucket. */
  lemma FailsIffTenTaken(calls: seq<Call>, tables: seq<Table>, next: Call)
    requires Healthy(calls, tables) && next.mutex != NULL
    ensures !FindsRoom(tables[|calls|], next) <==>
            && (next.Use? ==> forall i :: 0 <= i < |calls| ==> calls[i].mutex != next.mutex)
            && SlotsTaken(calls, |calls|, MyHash(next.mutex)) == 10
  {
    var n := |calls|;
    BucketHoldsTaken(calls, tables, n, MyHash(next.mutex));
    TablesStayGood(calls, tables, n);
    assert GoodBucket(tables[n][MyHash(next.mutex)], MyHash(next.mutex));
    if i :| 0 <= i < n && calls[i].mutex == next.mutex {
      var f := First(calls, i);
      assert CallAt(calls, tables, f);
      FirstCallWins(calls, tables, n, f);
    } else {
      NeverMentioned(calls, tables, n, next.mutex);
    }
  }

  lemma {:induction false} NeverMentioned(calls: seq<Call>, tables: seq<Table>, n: nat, mutex: Address)
    requires Healthy(calls, tables) && n <= |calls| && forall i :: 0 <= i < |calls| ==> calls[i].mutex != mutex
    ensures Get(tables[n], mutex) == NULL
  {
    if n == 0 {
      EmptyTable(mutex);
    } else {
      NeverMentioned(calls, tables, n - 1, mutex);
      TablesStayGood(calls, tables, n - 1);
      assert CallAt(calls, tables, n - 1);
      AfterInsertsIfAbsent(tables[n - 1], calls[n - 1], mutex);
    }
  }

  ghost function First(calls: seq<Call>, i: nat): (f: nat)
    requires i < |calls|
    ensures f <= i && calls[f].mutex == calls[i].mutex && IsFirst(calls, f)
  {
    if j: nat :| j < i && calls[j].mutex == calls[i].mutex then First(calls, j) else i
  }

  /** Every use of a mutex, however late and whatever was created for it meanwhile, returns the
      implementation allocated by the first call on it. */
  lemma UseReturnsFirst(calls: seq<Call>, tables: seq<Table>, i: nat)
    requires Healthy(calls, tables) && i < |calls| && calls[i].Use?
    ensures Result(tables[i], calls[i]) == calls[First(calls, i)].spare
  {
    var f := First(calls, i);
    FirstCallWins(calls, tables, i, f);
    assert CallAt(calls, tables, f);
  }

  /** Two uses return the same implementation exactly when they are for the same mutex. */
  lemma SameLockIffSameMutex(calls: seq<Call>, tables: seq<Table>, i: nat, j: nat)
    requires Healthy(calls, tables) && i < |calls| && j < |calls| && calls[i].Use? && calls[j].Use?
    ensures Result(tables[i], calls[i]) == Result(tables[j], calls[j]) <==> calls[i].mutex == calls[j].mutex
  {
    UseReturnsFirst(calls, tables, i);
    UseReturnsFirst(calls, tables, j);
    assert IsFirst(calls, First(calls, i)) && IsFirst(calls, First(calls, j));
  }
}

/**
 How the reorder window of one segment evolves over a whole run: the additive-increase, halving
 controller violates rarely, stays just above its threshold, and recovers within 99 ends.
 */
module SegmentWindow {
  import opened Segments

  /** One end of the segment with its own id: whether a lock call slept since the last one, how long
      the segment took, and how long it may take. */
  datatype End = End(contended: bool, duration: nat, required: nat)

  predicate Violates(e: End) { e.contended && e.duration > e.required }

  predicate Satisfies(e: End) { e.contended && e.duration <= e.required }

  function AfterEnd(s: Segment, e: End): Segment {
    if !e.contended then s
    else if e.required < SEGMENT_REQ_THRESHOLD then s.(waitTime := MIN_REORDER)
    else Adjust(s, e.duration > e.required)
  }

  /** The window and its step before end number `n`, from `htll_thread_start` on. */
  function Window(ends: seq<End>, n: nat): Segment
    requires n <= |ends|
  {
    if n == 0 then Segment(DEFAULT_REORDER, DEFAULT_ADJUST_UNIT, false, 0)
    else AfterEnd(Window(ends, n - 1), ends[n - 1])
  }

  /** `segment_end` changes the window of the current segment as `AfterEnd` says, and no other. */
  lemma LeaveIsAfterEnd(v: View, required: nat, now: nat, j: nat)
    requires ValidView(v) && v.cur >= 0 && j < MAX_SEGMENT
    ensures var s := v.segs[j];
            var s' := Leave(v, required, now).segs[j];
            var e := End(j == v.cur && s.hasWaiter, Duration(v.segs[v.cur], now), required);
            s'.waitTime == AfterEnd(s, e).waitTime && s'.unit == AfterEnd(s, e).unit
  {
  }

  /** The latency requirement acts as a threshold on the window: contended ends violate exactly when
      the window has reached `threshold`. */
  predicate Thresholded(ends: seq<End>, threshold: nat) {
    forall i :: 0 <= i < |ends| && ends[i].contended ==>
      && ends[i].required >= SEGMENT_REQ_THRESHOLD
      && (Violates(ends[i]) <==> Window(ends, i).waitTime >= threshold)
  }

  predicate Realistic(threshold: nat) { 400000 <= threshold <= U64 / 2 }

  // ----- whatever happens

  /** No sequence of ends takes the window below 10000 or to 2^64, or its step below 1000. */
  lemma {:induction false} WindowInRange(ends: seq<End>, n: nat)
    requires n <= |ends|
    ensures 10000 <= Window(ends, n).waitTime < U64
    ensures 1000 <= Window(ends, n).unit < U64
  {
    if n > 0 { WindowInRange(ends, n - 1); }
  }

  /** A contended end whose requirement is below 100 takes the window to its minimum and keeps the step. */
  lemma SmallRequirementResets(ends: seq<End>, n: nat)
    requires n < |ends| && ends[n].contended && ends[n].required < 100
    ensures Window(ends, n + 1).waitTime == 10000 && Window(ends, n + 1).unit == Window(ends, n).unit
  {
  }

  // ----- the window stays just above the threshold

  lemma {:induction false} WindowBelow(ends: seq<End>, threshold: nat, n: nat)
    requires Realistic(threshold) && Thresholded(ends, threshold) && n <= |ends|
    ensures MIN_REORDER <= Window(ends, n).waitTime < threshold + threshold / 80
    ensures MIN_ADJUST_UNIT <= Window(ends, n).unit <= threshold / 80
  {
    if n > 0 {
      WindowBelow(ends, threshold, n - 1);
    }
  }

  // ----- and reaches it rarely

  /** Satisfied contended ends among numbers `a` to `b - 1`. */
  function SatisfiedEnds(ends: seq<End>, a: nat, b: nat): nat
    requires a <= b <= |ends|
  {
    if a == b then 0 else SatisfiedEnds(ends, a, b - 1) + if Satisfies(ends[b - 1]) then 1 else 0
  }

  lemma {:induction false} FewerFromLater(ends: seq<End>, a: nat, b: nat, n: nat)
    requires a <= b <= n <= |ends|
    ensures SatisfiedEnds(ends, b, n) <= SatisfiedEnds(ends, a, n)
  {
    if b < n { FewerFromLater(ends, a, b, n - 1); }
  }

  lemma ViolationHalves(ends: seq<End>, threshold: nat, i: nat)
    requires Realistic(threshold) && Thresholded(ends, threshold) && i < |ends| && Violates(ends[i])
    ensures var half := Window(ends, i).waitTime / 2;
            Window(ends, i + 1).waitTime == half && Window(ends, i + 1).unit == half / 99
  {
  }

  lemma NoViolationAddsUnit(ends: seq<End>, threshold: nat, i: nat)
    requires Realistic(threshold) && Thresholded(ends, threshold) && i < |ends| && !Violates(ends[i])
    ensures var w := Window(ends, i);
            && Window(ends, i + 1).waitTime == w.waitTime + (if Satisfies(ends[i]) then w.unit else 0)
            && Window(ends, i + 1).unit == w.unit
  {
    WindowBelow(ends, threshold, i);
  }

  lemma OneMoreStep(c: nat, u: nat)
    ensures (c + 1) * u == c * u + u && 0 * u == 0
  {
  }

  /** After a violation, the window grows by one step of 1/99 of the halved window for each satisfied
      contended end, as long as there is no further violation. */
  lemma {:induction false} Climb(ends: seq<End>, threshold: nat, i: nat, n: nat, half: nat, u: nat)
    requires Realistic(threshold) && Thresholded(ends, threshold)
    requires i < n <= |ends| && Violates(ends[i])
    requires forall k :: i < k < n ==> !Violates(ends[k])
    requires half == Window(ends, i).waitTime / 2 && u == half / 99
    ensures Window(ends, n).unit == u
    ensures Window(ends, n).waitTime == half + SatisfiedEnds(ends, i + 1, n) * u
  {
    if n == i + 1 {
      ViolationHalves(ends, threshold, i);
      OneMoreStep(0, u);
    } else {
      Climb(ends, threshold, i, n - 1, half, u);
      NoViolationAddsUnit(ends, threshold, n - 1);
      OneMoreStep(SatisfiedEnds(ends, i + 1, n - 1), u);
    }
  }

  /** Before the first violation it grows by 5000 for each satisfied end, from 10000. */
  lemma {:induction false} FirstClimb(ends: seq<End>, threshold: nat, n: nat)
    requires Realistic(threshold) && Thresholded(ends, threshold) && n <= |ends|
    requires forall k :: 0 <= k < n ==> !Violates(ends[k])
    ensures Window(ends, n).unit == 5000
    ensures Window(ends, n).waitTime == 10000 + 5000 * SatisfiedEnds(ends, 0, n)
  {
    if n > 0 {
      FirstClimb(ends, threshold, n - 1);
      NoViolationAddsUnit(ends, threshold, n - 1);
    }
  }

  lemma NotYetThere(half: nat, threshold: nat, c: nat)
    requires Realistic(threshold) && 2 * half <= threshold + threshold / 80
    ensures c <= 96 ==> half + c * (half / 99) < threshold
  {
    var u := half / 99;
    if c <= 96 {
      assert (96 - c) * u >= 0;
      assert c * u == 96 * u - (96 - c) * u;
    }
  }

  /** Violations are rare: between any two, at least 97 contended ends satisfy their requirement. */
  lemma {:induction false} ViolationsAreRare(ends: seq<End>, threshold: nat, i: nat, j: nat)
    requires Realistic(threshold) && Thresholded(ends, threshold)
    requires i < j < |ends| && Violates(ends[i]) && Violates(ends[j])
    ensures SatisfiedEnds(ends, i + 1, j) >= 97
    decreases j - i
  {
    if k :| i < k < j && Violates(ends[k]) {
      ViolationsAreRare(ends, threshold, k, j);
      FewerFromLater(ends, i + 1, k + 1, j);
    } else {
      var half := Window(ends, i).waitTime / 2;
      WindowBelow(ends, threshold, i);
      Climb(ends, threshold, i, j, half, half / 99);
      NotYetThere(half, threshold, SatisfiedEnds(ends, i + 1, j));
    }
  }

  // ----- recovery

  /** `k` satisfied contended ends in a row. */
  function Recover(s: Segment, k: nat): Segment {
    if k == 0 then s else Adjust(Recover(s, k - 1), false)
  }

  lemma SatisfiedAddsUnit(s: Segment)
    requires s.waitTime >= MIN_REORDER && s.waitTime + s.unit < U64
    ensures Adjust(s, false).waitTime == s.waitTime + s.unit && Adjust(s, false).unit == s.unit
  {
  }

  lemma {:induction false} RecoverClimbs(s: Segment, k: nat)
    requires s.waitTime >= MIN_REORDER && s.waitTime + k * s.unit < U64
    ensures Recover(s, k).waitTime == s.waitTime + k * s.unit && Recover(s, k).unit == s.unit
  {
    if k == 0 {
      OneMoreStep(0, s.unit);
    } else {
      OneMoreStep(k - 1, s.unit);
      RecoverClimbs(s, k - 1);
      SatisfiedAddsUnit(Recover(s, k - 1));
    }
  }

  /** From a violation at a window of at least 197999, up to 99 satisfied ends leave the window at or
      below where it was, and 99 of them bring it back to within 99. */
  lemma RecoveryBound(s: Segment, k: nat)
    requires 197999 <= s.waitTime < U64 && k <= 99
    ensures Recover(Adjust(s, true), k).waitTime <= s.waitTime
    ensures k == 99 ==> Recover(Adjust(s, true), k).waitTime >= s.waitTime - 99
  {
    var r := Adjust(s, true);
    assert k * r.unit <= 99 * r.unit by { assert (99 - k) * r.unit >= 0; }
    RecoverClimbs(r, k);
  }

  /** The window recovers after a violation: no 99 satisfied ends or fewer overshoot it, and 99 bring it
      back to within 99. */
  predicate Recovers(s: Segment) {
    && (forall k :: 0 <= k <= 99 ==> Recover(Adjust(s, true), k).waitTime <= s.waitTime)
    && Recover(Adjust(s, true), 99).waitTime >= s.waitTime - 99
  }

  /** Exactly where the window recovers: 99 satisfied ends overshoot a smaller one. */
  lemma RecoversIffLarge(s: Segment)
    requires s.waitTime < U64
    ensures Recovers(s) <==> s.waitTime >= 197999
  {
    if s.waitTime >= 197999 {
      forall k | 0 <= k <= 99 ensures Recover(Adjust(s, true), k).waitTime <= s.waitTime { RecoveryBound(s, k); }
      RecoveryBound(s, 99);
    } else {
      RecoverClimbs(Adjust(s, true), 99);
    }
  }
}

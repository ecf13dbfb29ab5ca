/**
 The window guarantees hold for a segment inside any nesting: what a whole controller run does to the
 window of segment `j` is what the ends of segment `j` do to it one after the other.
 */
module SegmentRuns {
  import opened Segments
  import W = SegmentWindow
  import opened SegmentNesting
  import opened SegmentTimes

  /** The end of segment `j` at event `k`, by the events alone. */
  function SeenAt(v: View, events: seq<Event>, k: nat, j: nat): W.End
    requires ValidView(v) && k < |events| && j < MAX_SEGMENT && EndsAt(events, k, j)
  {
    W.End(Contended(v.segs[j].hasWaiter, events, k, j), Took(events, k, j), events[k].required)
  }

  /** The ends of segment `j` among the first `k` events. */
  function EndsOf(v: View, events: seq<Event>, k: nat, j: nat): seq<W.End>
    requires ValidView(v) && k <= |events| && j < MAX_SEGMENT
  {
    if k == 0 then []
    else
      var ends := EndsOf(v, events, k - 1, j);
      if EndsAt(events, k - 1, j) then ends + [SeenAt(v, events, k - 1, j)] else ends
  }

  /** The window before end number `n` does not depend on later ends. */
  lemma {:induction false} WindowOfLonger(ends: seq<W.End>, longer: seq<W.End>, n: nat)
    requires n <= |ends| && ends <= longer
    ensures W.Window(longer, n) == W.Window(ends, n)
  {
    if n > 0 { WindowOfLonger(ends, longer, n - 1); }
  }

  predicate SameWindow(s: Segment, s': Segment) { s.waitTime == s'.waitTime && s.unit == s'.unit }

  lemma MoreRoom(events: seq<Event>, room: nat, room': nat)
    requires Bracketed(events, room) && room <= room'
    ensures Bracketed(events, room')
  {
    forall k | 0 <= k < |events| ensures AllowedAt(events, k, room') { assert AllowedAt(events, k, room); }
  }

  /** In any well-bracketed run the window of segment `j` is what the ends of `j`, told by the events alone,
      make of it one after the other. */
  lemma {:induction false} WindowOfRun(v: View, events: seq<Event>, k: nat, room: nat, j: nat)
    requires ValidView(v) && Bracketed(events, room) && |v.stack| + room <= MAX_DEPTH
    requires k <= |events| && j < MAX_SEGMENT
    requires SameWindow(v.segs[j], FreshSegment(v.segs[j]))
    ensures ValidView(Run(v, events[..k]))
    ensures var ends := EndsOf(v, events, k, j);
            SameWindow(Run(v, events[..k]).segs[j], W.Window(ends, |ends|))
  {
    MoreRoom(events, room, MAX_DEPTH - |v.stack|);
    if k == 0 {
      assert events[..0] == [];
    } else {
      WindowOfRun(v, events, k - 1, MAX_DEPTH - |v.stack|, j);
      EventMovesWindow(v, events, k, j);
    }
  }

  /** An end appends to the ends of its own segment, and moves the window of that segment alone. */
  lemma EndMovesWindow(v: View, e: Event, j: nat, ends: seq<W.End>)
    requires ValidView(v) && j < MAX_SEGMENT && e.End? && v.cur >= 0 && !EndFails(v, e.id, e.required)
    requires SameWindow(v.segs[j], W.Window(ends, |ends|))
    ensures var last := W.End(v.segs[j].hasWaiter, Duration(v.segs[j], e.now), e.required);
            var ends' := if v.cur == j then ends + [last] else ends;
            SameWindow(Leave(v, e.required, e.now).segs[j], W.Window(ends', |ends'|))
  {
    W.LeaveIsAfterEnd(v, e.required, e.now, j);
    if v.cur == j {
      var last := W.End(v.segs[j].hasWaiter, Duration(v.segs[j], e.now), e.required);
      WindowOfLonger(ends, ends + [last], |ends|);
    }
  }

  lemma EventMovesWindow(v: View, events: seq<Event>, k: nat, j: nat)
    requires ValidView(v) && Bracketed(events, MAX_DEPTH - |v.stack|) && 0 < k <= |events| && j < MAX_SEGMENT
    requires ValidView(Run(v, events[..k - 1]))
    requires var ends := EndsOf(v, events, k - 1, j);
             SameWindow(Run(v, events[..k - 1]).segs[j], W.Window(ends, |ends|))
    ensures ValidView(Run(v, events[..k]))
    ensures var ends := EndsOf(v, events, k, j);
            SameWindow(Run(v, events[..k]).segs[j], W.Window(ends, |ends|))
  {
    var v', e := Run(v, events[..k - 1]), events[k - 1];
    ControllerAt(v, events, k - 1);
    if e.End? {
      if e.id == j { EndIsMeasured(v, events, k - 1, j); }
      EndMovesWindow(v', e, j, EndsOf(v, events, k - 1, j));
    }
  }

  /** In any well-bracketed run of a thread, the window of a segment whose latency requirement acts as a
      threshold stays below the threshold plus 1/80 of it. */
  lemma WindowBoundedInRun(v: View, events: seq<Event>, k: nat, j: nat, threshold: nat)
    requires ValidView(v) && Bracketed(events, MAX_DEPTH - |v.stack|) && k <= |events| && j < MAX_SEGMENT
    requires SameWindow(v.segs[j], FreshSegment(v.segs[j]))
    requires W.Realistic(threshold) && W.Thresholded(EndsOf(v, events, k, j), threshold)
    ensures ValidView(Run(v, events[..k]))
    ensures Run(v, events[..k]).segs[j].waitTime < threshold + threshold / 80
  {
    WindowOfRun(v, events, k, MAX_DEPTH - |v.stack|, j);
    var ends := EndsOf(v, events, k, j);
    W.WindowBelow(ends, threshold, |ends|);
  }

  /** In any well-bracketed run the window of a segment stays between 10000 and 2^64, and a contended end with
      a requirement below 100 takes it to 10000. */
  lemma WindowInRangeInRun(v: View, events: seq<Event>, k: nat, j: nat)
    requires ValidView(v) && Bracketed(events, MAX_DEPTH - |v.stack|) && k < |events| && j < MAX_SEGMENT
    requires SameWindow(v.segs[j], FreshSegment(v.segs[j]))
    ensures ValidView(Run(v, events[..k + 1]))
    ensures var w := Run(v, events[..k + 1]).segs[j].waitTime;
            && 10000 <= w < U64
            && (EndsAt(events, k, j) && Contended(v.segs[j].hasWaiter, events, k, j) && events[k].required < 100 ==> w == 10000)
  {
    WindowOfRun(v, events, k + 1, MAX_DEPTH - |v.stack|, j);
    var ends := EndsOf(v, events, k + 1, j);
    W.WindowInRange(ends, |ends|);
    if EndsAt(events, k, j) && SeenAt(v, events, k, j).contended && events[k].required < 100 {
      W.SmallRequirementResets(ends, |ends| - 1);
    }
  }

  /** A thread starts outside any segment with every window at 10000 and every step at 5000; a segment keeps
      them until its first end, and the thread is outside again once its brackets are closed. */
  lemma FreshThread(v: View, events: seq<Event>, k: nat, j: nat)
    requires ValidView(v) && Bracketed(events, MAX_DEPTH - |v.stack|) && k <= |events| && j < MAX_SEGMENT
    ensures ValidView(Started(v)) && ValidView(Run(Started(v), events[..k]))
    ensures var v', open := Run(Started(v), events[..k]), Open(events[..k]);
            && v'.cur == (if open == [] then -1 else open[|open| - 1])
            && ((forall i :: 0 <= i < k ==> !EndsAt(events, i, j)) ==>
                 v'.segs[j].waitTime == 10000 && v'.segs[j].unit == 5000)
  {
    var v0 := Started(v);
    NestingRestoresContext(v0, events, k);
    WindowOfRun(v0, events, k, MAX_DEPTH - |v.stack|, j);
    if forall i :: 0 <= i < k ==> !EndsAt(events, i, j) { NoEnds(v0, events, k, j); }
  }

  lemma {:induction false} NoEnds(v: View, events: seq<Event>, k: nat, j: nat)
    requires ValidView(v) && k <= |events| && j < MAX_SEGMENT && forall i :: 0 <= i < k ==> !EndsAt(events, i, j)
    ensures EndsOf(v, events, k, j) == []
  {
    if k > 0 { NoEnds(v, events, k - 1, j); }
  }

  // ----- violations, by the events of the run

  /** Event `k` is a contended end of segment `j` that took longer than required. */
  predicate ViolatesAt(v: View, events: seq<Event>, k: nat, j: nat)
    requires ValidView(v) && k < |events| && j < MAX_SEGMENT
  {
    EndsAt(events, k, j) && Contended(v.segs[j].hasWaiter, events, k, j) && Took(events, k, j) > events[k].required
  }

  /** Event `k` is a contended end of segment `j` that was fast enough. */
  predicate SatisfiesAt(v: View, events: seq<Event>, k: nat, j: nat)
    requires ValidView(v) && k < |events| && j < MAX_SEGMENT
  {
    EndsAt(events, k, j) && Contended(v.segs[j].hasWaiter, events, k, j) && Took(events, k, j) <= events[k].required
  }

  /** How many of the events `a` to `b - 1` are contended ends of segment `j` that are fast enough. */
  function SatisfiedIn(v: View, events: seq<Event>, a: nat, b: nat, j: nat): nat
    requires ValidView(v) && a <= b <= |events| && j < MAX_SEGMENT
  {
    if a == b then 0 else SatisfiedIn(v, events, a, b - 1, j) + if SatisfiesAt(v, events, b - 1, j) then 1 else 0
  }

  /** The latency requirement of segment `j` acts as a threshold on the controller's window at each of its
      contended ends. */
  predicate ThresholdedRun(v: View, events: seq<Event>, j: nat, threshold: nat)
    requires ValidView(v) && j < MAX_SEGMENT
  {
    forall k :: 0 <= k < |events| && EndsAt(events, k, j) && Contended(v.segs[j].hasWaiter, events, k, j) ==>
      && events[k].required >= SEGMENT_REQ_THRESHOLD && ValidView(Run(v, events[..k]))
      && (ViolatesAt(v, events, k, j) <==> Run(v, events[..k]).segs[j].waitTime >= threshold)
  }

  lemma {:induction false} EndsOfGrows(v: View, events: seq<Event>, a: nat, b: nat, j: nat)
    requires ValidView(v) && a <= b <= |events| && j < MAX_SEGMENT
    ensures EndsOf(v, events, a, j) <= EndsOf(v, events, b, j)
  {
    if a < b {
      EndsOfGrows(v, events, a, b - 1, j);
    }
  }

  /** The end at event `k` is number `|EndsOf(v, events, k, j)|`, and the controller's window there is the
      window before that end. */
  lemma EndNumber(v: View, events: seq<Event>, k: nat, j: nat) returns (n: nat)
    requires ValidView(v) && Bracketed(events, MAX_DEPTH - |v.stack|) && k < |events| && j < MAX_SEGMENT
    requires SameWindow(v.segs[j], FreshSegment(v.segs[j])) && EndsAt(events, k, j)
    ensures var ends := EndsOf(v, events, |events|, j);
            && n == |EndsOf(v, events, k, j)| < |ends| && ends[n] == SeenAt(v, events, k, j)
            && |EndsOf(v, events, k + 1, j)| == n + 1 && ValidView(Run(v, events[..k]))
            && SameWindow(Run(v, events[..k]).segs[j], W.Window(ends, n))
  {
    var before, ends := EndsOf(v, events, k, j), EndsOf(v, events, |events|, j);
    n := |before|;
    EndsOfGrows(v, events, k, |events|, j);
    EndsOfGrows(v, events, k + 1, |events|, j);
    assert ends[n] == EndsOf(v, events, k + 1, j)[n];
    WindowOfRun(v, events, k, MAX_DEPTH - |v.stack|, j);
    WindowOfLonger(before, ends, n);
  }

  /** Which event the end number `n` is. */
  lemma {:induction false} EventOfEnd(v: View, events: seq<Event>, b: nat, j: nat, n: nat) returns (k: nat)
    requires ValidView(v) && b <= |events| && j < MAX_SEGMENT && n < |EndsOf(v, events, b, j)|
    ensures k < b && EndsAt(events, k, j) && n == |EndsOf(v, events, k, j)|
  {
    if n < |EndsOf(v, events, b - 1, j)| { k := EventOfEnd(v, events, b - 1, j, n); } else { k := b - 1; }
  }

  lemma ThresholdCarriesOver(v: View, events: seq<Event>, j: nat, threshold: nat)
    requires ValidView(v) && Bracketed(events, MAX_DEPTH - |v.stack|) && j < MAX_SEGMENT
    requires SameWindow(v.segs[j], FreshSegment(v.segs[j])) && ThresholdedRun(v, events, j, threshold)
    ensures W.Thresholded(EndsOf(v, events, |events|, j), threshold)
  {
    var ends := EndsOf(v, events, |events|, j);
    forall n | 0 <= n < |ends| && ends[n].contended
      ensures ends[n].required >= SEGMENT_REQ_THRESHOLD
      ensures W.Violates(ends[n]) <==> W.Window(ends, n).waitTime >= threshold
    {
      var k := EventOfEnd(v, events, |events|, j, n);
      var n' := EndNumber(v, events, k, j);
      assert SeenAt(v, events, k, j).contended;
    }
  }

  /** Event `k` adds to the count what the end that it is, if any, adds. */
  lemma OneMoreEvent(v: View, events: seq<Event>, k: nat, j: nat, from: nat)
    requires ValidView(v) && Bracketed(events, MAX_DEPTH - |v.stack|) && k < |events| && j < MAX_SEGMENT
    requires SameWindow(v.segs[j], FreshSegment(v.segs[j]))
    requires from <= |EndsOf(v, events, k, j)| <= |EndsOf(v, events, k + 1, j)| <= |EndsOf(v, events, |events|, j)|
    ensures var ends := EndsOf(v, events, |events|, j);
            W.SatisfiedEnds(ends, from, |EndsOf(v, events, k + 1, j)|) ==
            W.SatisfiedEnds(ends, from, |EndsOf(v, events, k, j)|) + if SatisfiesAt(v, events, k, j) then 1 else 0
  {
    if EndsAt(events, k, j) {
      var n := EndNumber(v, events, k, j);
    }
  }

  lemma {:induction false} SatisfiedInIsSatisfiedEnds(v: View, events: seq<Event>, a: nat, b: nat, j: nat)
    requires ValidView(v) && Bracketed(events, MAX_DEPTH - |v.stack|) && a <= b <= |events| && j < MAX_SEGMENT
    requires SameWindow(v.segs[j], FreshSegment(v.segs[j]))
    ensures |EndsOf(v, events, a, j)| <= |EndsOf(v, events, b, j)| <= |EndsOf(v, events, |events|, j)|
    ensures SatisfiedIn(v, events, a, b, j) ==
            W.SatisfiedEnds(EndsOf(v, events, |events|, j), |EndsOf(v, events, a, j)|, |EndsOf(v, events, b, j)|)
  {
    EndsOfGrows(v, events, a, b, j);
    EndsOfGrows(v, events, b, |events|, j);
    if a < b {
      SatisfiedInIsSatisfiedEnds(v, events, a, b - 1, j);
      EndsOfGrows(v, events, b - 1, b, j);
      OneMoreEvent(v, events, b - 1, j, |EndsOf(v, events, a, j)|);
    }
  }

  /** An event that violates is an end that violates. */
  lemma ViolatingEnd(v: View, events: seq<Event>, k: nat, j: nat) returns (n: nat)
    requires ValidView(v) && Bracketed(events, MAX_DEPTH - |v.stack|) && k < |events| && j < MAX_SEGMENT
    requires SameWindow(v.segs[j], FreshSegment(v.segs[j])) && ViolatesAt(v, events, k, j)
    ensures n == |EndsOf(v, events, k, j)| && |EndsOf(v, events, k + 1, j)| == n + 1
    ensures n < |EndsOf(v, events, |events|, j)| && W.Violates(EndsOf(v, events, |events|, j)[n])
  {
    n := EndNumber(v, events, k, j);
  }

  lemma SatisfiedBetween(v: View, events: seq<Event>, k: nat, k': nat, j: nat, n: nat, n': nat)
    requires ValidView(v) && Bracketed(events, MAX_DEPTH - |v.stack|) && k < k' < |events| && j < MAX_SEGMENT
    requires SameWindow(v.segs[j], FreshSegment(v.segs[j]))
    requires n + 1 == |EndsOf(v, events, k + 1, j)| && n' == |EndsOf(v, events, k', j)|
    ensures n < n' <= |EndsOf(v, events, |events|, j)|
    ensures SatisfiedIn(v, events, k + 1, k', j) == W.SatisfiedEnds(EndsOf(v, events, |events|, j), n + 1, n')
  {
    SatisfiedInIsSatisfiedEnds(v, events, k + 1, k', j);
  }

  /** Violations are rare in any run of the controller: between any two events at which segment `j` violates
      its requirement, at least 97 of its contended ends satisfy it, whatever other segments are nested
      around it. */
  lemma ViolationsAreRareInRun(v: View, events: seq<Event>, k: nat, k': nat, j: nat, threshold: nat)
    requires ValidView(v) && Bracketed(events, MAX_DEPTH - |v.stack|) && k < k' < |events| && j < MAX_SEGMENT
    requires SameWindow(v.segs[j], FreshSegment(v.segs[j]))
    requires W.Realistic(threshold) && ThresholdedRun(v, events, j, threshold)
    requires ViolatesAt(v, events, k, j) && ViolatesAt(v, events, k', j)
    ensures SatisfiedIn(v, events, k + 1, k', j) >= 97
  {
    var ends := EndsOf(v, events, |events|, j);
    var n := ViolatingEnd(v, events, k, j);
    var n' := ViolatingEnd(v, events, k', j);
    SatisfiedBetween(v, events, k, k', j, n, n');
    ThresholdCarriesOver(v, events, j, threshold);
    W.ViolationsAreRare(ends, threshold, n, n');
  }
}

/**
 The segment controller: per thread, a table of reorder windows, the current segment, and a stack of
 the segments that enclose it (litl/src/htll.c, lines 29-39, 150-156 and 300-377).
 */
module Segments {

  const MAX_SEGMENT := 256
  const MAX_DEPTH := 30
  const DEFAULT_REORDER := 10000
  const MIN_REORDER := 10000
  const DEFAULT_ADJUST_UNIT := 5000
  const MIN_ADJUST_UNIT := 1000
  const SEGMENT_REQ_THRESHOLD := 100
  const EINVAL := 22
  const U64 := 0x1_0000_0000_0000_0000

  datatype Segment = Segment(waitTime: nat, unit: nat, hasWaiter: bool, startTs: nat)

  datatype View = View(segs: seq<Segment>, cur: int, stack: seq<int>)

  predicate ValidView(v: View) {
    && |v.segs| == MAX_SEGMENT
    && -1 <= v.cur < MAX_SEGMENT
    && |v.stack| <= MAX_DEPTH
    && forall i :: 0 <= i < |v.stack| ==> -1 <= v.stack[i] < MAX_SEGMENT
  }

  // ----- specification of the operations

  function FreshSegment(s: Segment): Segment { s.(waitTime := DEFAULT_REORDER, unit := DEFAULT_ADJUST_UNIT) }

  function Started(v: View): View
    requires ValidView(v)
  {
    v.(segs := seq(MAX_SEGMENT, i requires 0 <= i < MAX_SEGMENT => FreshSegment(v.segs[i])), cur := -1)
  }

  /** Lines 356-365: what a contended end makes of the window and its step. */
  function Adjust(s: Segment, violated: bool): Segment {
    if violated then
      var half := s.waitTime / 2;
      s.(waitTime := if half < MIN_REORDER then MIN_REORDER else half,
         unit := if half / 99 < MIN_ADJUST_UNIT then MIN_ADJUST_UNIT else half / 99)
    else
      var sum := (s.waitTime + s.unit) % U64;
      s.(waitTime := if sum < MIN_REORDER then MIN_REORDER else sum)
  }

  function Duration(s: Segment, now: nat): nat { (now - s.startTs) % U64 }

  /** The current segment after an end that succeeds. */
  function EndOne(s: Segment, required: nat, now: nat): Segment {
    if !s.hasWaiter then s
    else if required < SEGMENT_REQ_THRESHOLD then s.(waitTime := MIN_REORDER)
    else Adjust(s, Duration(s, now) > required).(hasWaiter := false)
  }

  /** Does `segment_end` report an error? Only where it looks at the id at all. */
  predicate EndFails(v: View, id: int, required: nat)
    requires ValidView(v) && v.cur >= 0
  {
    v.segs[v.cur].hasWaiter && required >= SEGMENT_REQ_THRESHOLD && id != v.cur
  }

  function Enter(v: View, id: nat, now: nat): View
    requires ValidView(v) && id < MAX_SEGMENT
  {
    View(v.segs[id := v.segs[id].(startTs := now)], id, v.stack + [v.cur])
  }

  function Leave(v: View, required: nat, now: nat): View
    requires ValidView(v) && v.cur >= 0
  {
    var segs := v.segs[v.cur := EndOne(v.segs[v.cur], required, now)];
    var n := |v.stack|;
    if n == 0 then View(segs, -1, []) else View(segs, v.stack[n - 1], v.stack[..n - 1])
  }

  function Slept(v: View): View
    requires ValidView(v) && v.cur >= 0
  {
    v.(segs := v.segs[v.cur := v.segs[v.cur].(hasWaiter := true)])
  }

  // ----- the controller

  class Controller {
    const segment: array<Segment>
    const segmentStack: array<int>
    var stackPos: int
    var curSegmentId: int

    predicate Valid()
      reads this, segment, segmentStack
    {
      && segment.Length == MAX_SEGMENT && segmentStack.Length == MAX_DEPTH
      && -1 <= stackPos < MAX_DEPTH
      && -1 <= curSegmentId < MAX_SEGMENT
      && forall i :: 0 <= i <= stackPos ==> -1 <= segmentStack[i] < MAX_SEGMENT
    }

    function Model(): (v: View)
      reads this, segment, segmentStack
      requires Valid()
      ensures ValidView(v)
    {
      View(segment[..], curSegmentId, segmentStack[..stackPos + 1])
    }

    constructor ()
      ensures Valid() && fresh(segment) && fresh(segmentStack)
      ensures Model() == View(seq(MAX_SEGMENT, _ => Segment(0, 0, false, 0)), -1, [])
    {
      segment := new Segment[MAX_SEGMENT](_ => Segment(0, 0, false, 0));
      segmentStack := new int[MAX_DEPTH](_ => 0);
      stackPos := -1;
      curSegmentId := -1;
    }

    /** `htll_thread_start`. */
    method ThreadStart()
      requires Valid()
      modifies this, segment
      ensures Valid()
      ensures Model() == Started(old(Model()))
    {
      for i := 0 to MAX_SEGMENT
        invariant Valid() && stackPos == old(stackPos) && curSegmentId == old(curSegmentId)
        invariant forall j :: 0 <= j < i ==> segment[j] == FreshSegment(old(segment[j]))
        invariant forall j :: i <= j < MAX_SEGMENT ==> segment[j] == old(segment[j])
      {
        segment[i] := segment[i].(waitTime := DEFAULT_REORDER, unit := DEFAULT_ADJUST_UNIT);
      }
      curSegmentId := -1;
    }

    /** `push_segment`. Its own limit test never fires below the depth that the array can hold. */
    method PushSegment(id: int) returns (r: int)
      requires Valid() && stackPos + 1 < MAX_DEPTH && -1 <= id < MAX_SEGMENT
      modifies `stackPos, segmentStack
      ensures Valid() && r == 0
      ensures Model() == old(Model()).(stack := old(Model()).stack + [id])
    {
      stackPos := stackPos + 1;
      segmentStack[stackPos] := id;
      r := 0;
    }

    /** `pop_segment`. */
    method PopSegment() returns (r: int)
      requires Valid()
      modifies `stackPos
      ensures Valid()
      ensures old(stackPos) < 0 ==> r == -EINVAL && stackPos == old(stackPos)
      ensures old(stackPos) >= 0 ==> old(Model()).stack == Model().stack + [r]
    {
      if stackPos < 0 {
        return -EINVAL;
      }
      r := segmentStack[stackPos];
      stackPos := stackPos - 1;
    }

    /** `segment_start`, for the ids and depths that its arrays can hold. */
    method SegmentStart(id: int, now: nat) returns (r: int)
      requires Valid() && id != MAX_SEGMENT && stackPos + 1 < MAX_DEPTH
      modifies this, segment, segmentStack
      ensures Valid()
      ensures r == (if 0 <= id < MAX_SEGMENT then 0 else -EINVAL)
      ensures Model() == if r == 0 then Enter(old(Model()), id, now) else old(Model())
    {
      if id < 0 || id > MAX_SEGMENT || curSegmentId < -1 {
        return -EINVAL;
      }
      r := PushSegment(curSegmentId);
      curSegmentId := id;
      segment[curSegmentId] := segment[curSegmentId].(startTs := now);
    }

    /** The part of `segment_end` that adjusts the window of the current segment (lines 338-369). */
    method AdjustCurrent(id: int, required: nat, now: nat) returns (r: int)
      requires Valid() && curSegmentId >= 0
      modifies segment
      ensures Valid()
      ensures r == if EndFails(old(Model()), id, required) then -EINVAL else 0
      ensures segment[..] == if r == 0 then old(segment[..])[curSegmentId := EndOne(old(segment[curSegmentId]), required, now)]
                             else old(segment[..])
    {
      var s := segment[curSegmentId];
      if s.hasWaiter {
        if required < SEGMENT_REQ_THRESHOLD {
          segment[curSegmentId] := s.(waitTime := MIN_REORDER);
          return 0;
        }
        if id < 0 || id > MAX_SEGMENT {
          return -EINVAL;
        }
        if id != curSegmentId {
          return -EINVAL;
        }
        var waitTime, unit := s.waitTime, s.unit;
        if (now - s.startTs) % U64 > required {
          waitTime := waitTime / 2;
          unit := waitTime / 99;
          if unit < MIN_ADJUST_UNIT {
            unit := MIN_ADJUST_UNIT;
          }
        } else {
          waitTime := (waitTime + unit) % U64;
        }
        if waitTime < MIN_REORDER {
          waitTime := MIN_REORDER;
        }
        segment[curSegmentId] := s.(waitTime := waitTime, unit := unit);
      }
      segment[curSegmentId] := segment[curSegmentId].(hasWaiter := false);
      r := 0;
    }

    /** `segment_end`, inside a segment. */
    method SegmentEnd(id: int, required: nat, now: nat) returns (r: int)
      requires Valid() && curSegmentId >= 0
      modifies this, segment
      ensures Valid()
      ensures r == if EndFails(old(Model()), id, required) then -EINVAL else 0
      ensures Model() == if r == 0 then Leave(old(Model()), required, now) else old(Model())
    {
      r := AdjustCurrent(id, required, now);
      if r != 0 {
        return;
      }
      if stackPos < 0 {
        curSegmentId := -1;
      } else {
        curSegmentId := PopSegment();
      }
    }

    /** What a lock call does to the current segment once it has slept (lines 86, 226 and 288). */
    method NoteWaiter()
      requires Valid() && curSegmentId >= 0
      modifies segment
      ensures Valid() && Model() == Slept(old(Model()))
    {
      segment[curSegmentId] := segment[curSegmentId].(hasWaiter := true);
    }
  }
}

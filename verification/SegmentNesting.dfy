/**
 Nested segments: for every well-bracketed sequence of starts and ends, the controller's current
 segment is the innermost open one, and everything but the windows is back at the end.
 */
module SegmentNesting {
  import opened Segments

  datatype Event =
    | Start(id: int, now: nat)
    | End(id: int, required: nat, now: nat)
    | Sleep    // a lock call slept inside the current segment

  /** The brackets still open after `events`, outermost first: a notion that knows no controller. */
  function Open(events: seq<Event>): seq<int> {
    if events == [] then []
    else
      var n := |events| - 1;
      var open := Open(events[..n]);
      match events[n]
      case Start(id, _) => open + [id]
      case End(_, _, _) => if open == [] then [] else open[..|open| - 1]
      case Sleep => open
  }

  /** Each event is allowed after the ones before it: a start has an id that the table holds and finds
      room on the stack, an end closes the innermost open segment, a sleep happens inside one. */
  predicate Bracketed(events: seq<Event>, room: nat) {
    forall k :: 0 <= k < |events| ==> AllowedAt(events, k, room)
  }

  predicate AllowedAt(events: seq<Event>, k: nat, room: nat)
    requires k < |events|
  {
    var open := Open(events[..k]);
    match events[k]
    case Start(id, _) => 0 <= id < MAX_SEGMENT && |open| < room
    case End(id, _, _) => open != [] && id == open[|open| - 1]
    case Sleep => open != []
  }

  /** What the controller does, and the code it returns. */
  function Apply(v: View, e: Event): (View, int)
    requires ValidView(v)
  {
    match e
    case Start(id, now) => if 0 <= id < MAX_SEGMENT then (Enter(v, id, now), 0) else (v, -EINVAL)
    case End(id, required, now) =>
      if v.cur < 0 || EndFails(v, id, required) then (v, -EINVAL) else (Leave(v, required, now), 0)
    case Sleep => if v.cur < 0 then (v, -EINVAL) else (Slept(v), 0)
  }

  function Run(v: View, events: seq<Event>): View
    requires ValidView(v)
  {
    if events == [] then v
    else
      var v' := Run(v, events[..|events| - 1]);
      if ValidView(v') then Apply(v', events[|events| - 1]).0 else v'
  }

  /** The current segment on top of the ones that enclose it. */
  function Chain(v: View): seq<int> { v.stack + [v.cur] }

  predicate ValidIds(open: seq<int>) { forall i :: 0 <= i < |open| ==> 0 <= open[i] < MAX_SEGMENT }

  /** One allowed event succeeds, and moves the chain as it moves the open brackets. */
  lemma StepFollows(v: View, base: seq<int>, events: seq<Event>, k: nat, room: nat)
    requires ValidView(v) && k < |events| && AllowedAt(events, k, room) && |base| > 0
    requires |base| + room <= MAX_DEPTH + 1
    requires Chain(v) == base + Open(events[..k]) && ValidIds(Open(events[..k]))
    ensures ValidIds(Open(events[..k + 1]))
    ensures var (v', r) := Apply(v, events[k]);
            r == 0 && ValidView(v') && Chain(v') == base + Open(events[..k + 1])
  {
    var open := Open(events[..k]);
    assert events[..k + 1][..k] == events[..k];
    assert v.cur == Chain(v)[|Chain(v)| - 1] && v.stack == Chain(v)[..|Chain(v)| - 1];
    match events[k]
    case Start(id, now) =>
      assert Chain(Enter(v, id, now)) == base + (open + [id]);
    case End(id, required, now) =>
      assert v.cur == open[|open| - 1] == id;
      var chain := base + open[..|open| - 1];
      assert v.stack == chain;
      assert Chain(Leave(v, required, now)) == chain;
    case Sleep =>
      assert v.cur == open[|open| - 1];
  }

  lemma RunUnfolds(v: View, events: seq<Event>, k: nat)
    requires ValidView(v) && 0 < k <= |events| && ValidView(Run(v, events[..k - 1]))
    ensures Run(v, events[..k]) == Apply(Run(v, events[..k - 1]), events[k - 1]).0
  {
    assert events[..k][..k - 1] == events[..k - 1];
  }

  lemma {:induction false} RunFollows(v: View, events: seq<Event>, k: nat, room: nat)
    requires ValidView(v) && k <= |events| && |v.stack| + room <= MAX_DEPTH && Bracketed(events, room)
    ensures ValidView(Run(v, events[..k])) && Chain(Run(v, events[..k])) == Chain(v) + Open(events[..k])
    ensures ValidIds(Open(events[..k]))
  {
    if k == 0 {
      assert Chain(v) + [] == Chain(v);
    } else {
      RunFollows(v, events, k - 1, room);
      assert AllowedAt(events, k - 1, room);
      StepFollows(Run(v, events[..k - 1]), Chain(v), events, k - 1, room);
      RunUnfolds(v, events, k);
    }
  }

  /** At every point of a well-bracketed sequence the current segment is the innermost open one, or the
      one from before when none is open; no call fails; and once all brackets are closed, the current
      segment and the stack are as they were. */
  lemma NestingRestoresContext(v: View, events: seq<Event>, k: nat)
    requires ValidView(v) && Bracketed(events, 30 - |v.stack|) && k <= |events|
    ensures var v', open := Run(v, events[..k]), Open(events[..k]);
            && ValidView(v')
            && v'.cur == (if open == [] then v.cur else open[|open| - 1])
            && (k < |events| ==> Apply(v', events[k]).1 == 0)
            && (open == [] ==> v'.stack == v.stack)
  {
    var room := MAX_DEPTH - |v.stack|;
    RunFollows(v, events, k, room);
    if k < |events| {
      assert AllowedAt(events, k, room);
      StepFollows(Run(v, events[..k]), Chain(v), events, k, room);
    }
    var v', open := Run(v, events[..k]), Open(events[..k]);
    assert v'.cur == Chain(v')[|Chain(v')| - 1] && v'.stack == Chain(v')[..|Chain(v')| - 1];
    if open == [] { assert Chain(v') == Chain(v); }
  }

  /** Only named segments are ever open. */
  lemma {:induction false} OpenAreNamed(events: seq<Event>, k: nat, j: nat)
    requires k <= |events| && forall i :: 0 <= i < |events| && events[i].Start? ==> events[i].id != j
    ensures j !in Open(events[..k])
  {
    if k > 0 {
      OpenAreNamed(events, k - 1, j);
      assert events[..k][..k - 1] == events[..k - 1];
    }
  }

  /** An event works on the segment that it starts, or on the current one. */
  lemma ApplyElsewhere(v: View, e: Event, j: nat)
    requires ValidView(v) && j < MAX_SEGMENT && (if e.Start? then e.id != j else v.cur != j)
    ensures |Apply(v, e).0.segs| == MAX_SEGMENT && Apply(v, e).0.segs[j] == v.segs[j]
  {
  }

  lemma EventLeavesOthers(v: View, events: seq<Event>, k: nat, j: nat)
    requires ValidView(v) && Bracketed(events, MAX_DEPTH - |v.stack|) && k < |events| && j < MAX_SEGMENT
    requires j !in Open(events[..k]) && (events[k].Start? ==> events[k].id != j)
    ensures ValidView(Run(v, events[..k])) && ValidView(Run(v, events[..k + 1]))
    ensures Run(v, events[..k + 1]).segs[j] == Run(v, events[..k]).segs[j]
  {
    NestingRestoresContext(v, events, k);
    RunFollows(v, events, k + 1, MAX_DEPTH - |v.stack|);
    RunUnfolds(v, events, k + 1);
    assert AllowedAt(events, k, MAX_DEPTH - |v.stack|);
    ApplyElsewhere(Run(v, events[..k]), events[k], j);
  }

  /** A segment that no event of the sequence names keeps its window, whatever is nested around it. */
  lemma {:induction false} OtherSegmentsUntouched(v: View, events: seq<Event>, k: nat, j: nat)
    requires ValidView(v) && Bracketed(events, MAX_DEPTH - |v.stack|) && k <= |events| && j < MAX_SEGMENT
    requires forall i :: 0 <= i < |events| && events[i].Start? ==> events[i].id != j
    ensures ValidView(Run(v, events[..k])) && Run(v, events[..k]).segs[j] == v.segs[j]
    ensures j !in Open(events[..k])
  {
    OpenAreNamed(events, k, j);
    if k == 0 {
      assert events[..0] == [];
    } else {
      OtherSegmentsUntouched(v, events, k - 1, j);
      EventLeavesOthers(v, events, k - 1, j);
    }
  }
}

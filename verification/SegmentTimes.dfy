/**
 What the controller measures, told by the events of a well-bracketed run alone: the duration of a segment is
 the time since its last start, and it is contended if a lock call has slept in it since the last end that
 took notice.
 */
module SegmentTimes {
  import opened Segments
  import opened SegmentNesting

  /** The last start of segment `j` before event `k`, or -1. */
  function LastStart(events: seq<Event>, k: nat, j: nat): (a: int)
    requires k <= |events|
    ensures -1 <= a < k && (a >= 0 ==> events[a].Start? && events[a].id == j)
    ensures forall i :: a < i < k ==> !(events[i].Start? && events[i].id == j)
  {
    if k == 0 then -1
    else if events[k - 1].Start? && events[k - 1].id == j then k - 1
    else LastStart(events, k - 1, j)
  }

  /** Event `k` ends segment `j`. */
  predicate EndsAt(events: seq<Event>, k: nat, j: nat)
    requires k < |events|
  {
    events[k].End? && events[k].id == j
  }

  /** How long segment `j`, which event `k` ends, has been open, on the 64-bit clock. */
  function Took(events: seq<Event>, k: nat, j: nat): nat
    requires k < |events| && EndsAt(events, k, j)
  {
    var a := LastStart(events, k, j);
    if a < 0 then 0 else (events[k].now - events[a].now) % U64
  }

  /** At event `k` a lock call sleeps with segment `j` as the innermost open one. */
  predicate SleepsIn(events: seq<Event>, k: nat, j: nat)
    requires k < |events|
  {
    var open := Open(events[..k]);
    events[k].Sleep? && open != [] && open[|open| - 1] == j
  }

  /** Event `k` ends segment `j` and takes notice of a sleep. */
  predicate TakesNotice(events: seq<Event>, k: nat, j: nat)
    requires k < |events|
  {
    EndsAt(events, k, j) && events[k].required >= SEGMENT_REQ_THRESHOLD
  }

  predicate NoNotice(events: seq<Event>, a: nat, b: nat, j: nat)
    requires b <= |events|
  {
    forall i :: a <= i < b ==> !TakesNotice(events, i, j)
  }

  /** Before event `k`, segment `j` is contended: a lock call has slept in it and no end has taken notice
      since, or neither has one since before the run, if it was contended then. */
  predicate Contended(before: bool, events: seq<Event>, k: nat, j: nat)
    requires k <= |events|
  {
    || (exists b :: 0 <= b < k && SleepsIn(events, b, j) && NoNotice(events, b + 1, k, j))
    || (before && NoNotice(events, 0, k, j))
  }

  lemma ContendedAfter(before: bool, events: seq<Event>, k: nat, j: nat)
    requires k < |events|
    ensures Contended(before, events, k + 1, j) <==>
            SleepsIn(events, k, j) || (Contended(before, events, k, j) && !TakesNotice(events, k, j))
  {
    if SleepsIn(events, k, j) {
      assert NoNotice(events, k + 1, k + 1, j);
    } else if Contended(before, events, k + 1, j) {
      if b :| 0 <= b < k + 1 && SleepsIn(events, b, j) && NoNotice(events, b + 1, k + 1, j) {
        assert b < k && NoNotice(events, b + 1, k, j) && !TakesNotice(events, k, j);
      }
    } else if Contended(before, events, k, j) {
      if b :| 0 <= b < k && SleepsIn(events, b, j) && NoNotice(events, b + 1, k, j) {
        assert !NoNotice(events, b + 1, k + 1, j);
      }
    }
  }

  // ----- what the controller has of it

  /** The controller before event `k` of a well-bracketed run, and what one allowed event does to a segment. */
  lemma ControllerAt(v: View, events: seq<Event>, k: nat)
    requires ValidView(v) && Bracketed(events, MAX_DEPTH - |v.stack|) && k < |events|
    ensures var v', open := Run(v, events[..k]), Open(events[..k]);
            && ValidView(v') && ValidView(Run(v, events[..k + 1])) && ValidIds(open)
            && (open != [] ==> v'.cur == open[|open| - 1])
            && Run(v, events[..k + 1]) == Apply(v', events[k]).0 && Apply(v', events[k]).1 == 0
            && AllowedAt(events, k, MAX_DEPTH - |v.stack|)
  {
    NestingRestoresContext(v, events, k);
    RunFollows(v, events, k, MAX_DEPTH - |v.stack|);
    RunFollows(v, events, k + 1, MAX_DEPTH - |v.stack|);
    RunUnfolds(v, events, k + 1);
    assert AllowedAt(events, k, MAX_DEPTH - |v.stack|);
  }

  /** One accepted event: what it makes of the start time and the waiter flag of segment `j`. */
  lemma EventOnSegment(v: View, e: Event, j: nat)
    requires ValidView(v) && j < MAX_SEGMENT && Apply(v, e).1 == 0 && |Apply(v, e).0.segs| == MAX_SEGMENT
    requires e.End? ==> v.cur == e.id
    ensures var s, s' := v.segs[j], Apply(v, e).0.segs[j];
            && s'.startTs == (if e.Start? && e.id == j then e.now else s.startTs)
            && s'.hasWaiter == ((e.Sleep? && v.cur == j)
                                || (s.hasWaiter && !(e.End? && e.id == j && e.required >= SEGMENT_REQ_THRESHOLD)))
  {
  }

  /** The start time of segment `j` is that of its last start. */
  lemma {:induction false} StartTimeIsLast(v: View, events: seq<Event>, k: nat, j: nat)
    requires ValidView(v) && Bracketed(events, MAX_DEPTH - |v.stack|) && k <= |events| && j < MAX_SEGMENT
    ensures ValidView(Run(v, events[..k]))
    ensures var a := LastStart(events, k, j);
            Run(v, events[..k]).segs[j].startTs == if a < 0 then v.segs[j].startTs else events[a].now
  {
    if k == 0 {
      assert events[..0] == [];
    } else {
      StartTimeIsLast(v, events, k - 1, j);
      ControllerAt(v, events, k - 1);
      EventOnSegment(Run(v, events[..k - 1]), events[k - 1], j);
    }
  }

  lemma FlagMoves(v: View, events: seq<Event>, k: nat, j: nat)
    requires ValidView(v) && Bracketed(events, MAX_DEPTH - |v.stack|) && k < |events| && j < MAX_SEGMENT
    ensures ValidView(Run(v, events[..k])) && ValidView(Run(v, events[..k + 1]))
    ensures Run(v, events[..k + 1]).segs[j].hasWaiter <==>
            SleepsIn(events, k, j) || (Run(v, events[..k]).segs[j].hasWaiter && !TakesNotice(events, k, j))
  {
    ControllerAt(v, events, k);
    EventOnSegment(Run(v, events[..k]), events[k], j);
  }

  /** Its waiter flag says whether it is contended. */
  lemma {:induction false} FlagIsContended(v: View, events: seq<Event>, k: nat, j: nat)
    requires ValidView(v) && Bracketed(events, MAX_DEPTH - |v.stack|) && k <= |events| && j < MAX_SEGMENT
    ensures ValidView(Run(v, events[..k]))
    ensures Run(v, events[..k]).segs[j].hasWaiter <==> Contended(v.segs[j].hasWaiter, events, k, j)
  {
    if k == 0 {
      assert events[..0] == [] && NoNotice(events, 0, 0, j);
    } else {
      FlagIsContended(v, events, k - 1, j);
      FlagMoves(v, events, k - 1, j);
      ContendedAfter(v.segs[j].hasWaiter, events, k - 1, j);
    }
  }

  lemma DurationIsTook(s: Segment, events: seq<Event>, k: nat, j: nat)
    requires k < |events| && EndsAt(events, k, j) && LastStart(events, k, j) >= 0
    requires s.startTs == events[LastStart(events, k, j)].now
    ensures Duration(s, events[k].now) == Took(events, k, j)
  {
  }

  lemma EnderIsOpen(v: View, events: seq<Event>, k: nat, j: nat)
    requires ValidView(v) && Bracketed(events, MAX_DEPTH - |v.stack|) && k < |events| && EndsAt(events, k, j)
    ensures j in Open(events[..k]) && ValidView(Run(v, events[..k])) && Run(v, events[..k]).cur == j
  {
    ControllerAt(v, events, k);
  }

  /** At an end of segment `j` the controller measures the time since the last start of `j`, whatever was
      nested in between, and sees whether `j` is contended. */
  lemma EndIsMeasured(v: View, events: seq<Event>, k: nat, j: nat)
    requires ValidView(v) && Bracketed(events, MAX_DEPTH - |v.stack|) && k < |events| && j < MAX_SEGMENT
    requires EndsAt(events, k, j)
    ensures var v' := Run(v, events[..k]);
            && ValidView(v') && v'.cur == j && LastStart(events, k, j) >= 0
            && Duration(v'.segs[j], events[k].now) == Took(events, k, j)
            && (v'.segs[j].hasWaiter <==> Contended(v.segs[j].hasWaiter, events, k, j))
  {
    EnderIsOpen(v, events, k, j);
    StartTimeIsLast(v, events, k, j);
    FlagIsContended(v, events, k, j);
    OpenWasStarted(events, k, j);
    DurationIsTook(Run(v, events[..k]).segs[j], events, k, j);
  }

  /** A segment that is open has been started. */
  lemma {:induction false} OpenWasStarted(events: seq<Event>, k: nat, j: nat)
    requires k <= |events| && j in Open(events[..k])
    ensures LastStart(events, k, j) >= 0
  {
    if k > 0 {
      assert events[..k][..k - 1] == events[..k - 1];
      if LastStart(events, k, j) < 0 { OpenWasStarted(events, k - 1, j); }
    }
  }

  /** After a well-bracketed run, an end is refused, and changes nothing, exactly if it names another segment
      than the innermost open one, which is contended, and its latency requirement is to be enforced.  Any
      other end closes the innermost segment, whichever it names. */
  lemma EndRefusedIff(v: View, events: seq<Event>, id: int, required: nat, now: nat)
    requires ValidView(v) && Bracketed(events, MAX_DEPTH - |v.stack|) && Open(events) != []
    ensures var v', open := Run(v, events), Open(events);
            var j := open[|open| - 1];
            && ValidView(v') && 0 <= j < MAX_SEGMENT
            && var (v'', r) := Apply(v', End(id, required, now));
               var refused := id != j && required >= SEGMENT_REQ_THRESHOLD && Contended(v.segs[j].hasWaiter, events, |events|, j);
               && (refused ==> r == -EINVAL && v'' == v')
               && (!refused ==> r == 0 && Chain(v'') == Chain(v) + open[..|open| - 1])
  {
    assert events[..|events|] == events;
    RunFollows(v, events, |events|, MAX_DEPTH - |v.stack|);
    var v', open := Run(v, events), Open(events);
    var j := open[|open| - 1];
    assert v'.cur == Chain(v')[|Chain(v')| - 1] == j;
    FlagIsContended(v, events, |events|, j);
    assert v'.stack == Chain(v')[..|Chain(v')| - 1] == Chain(v) + open[..|open| - 1];
    assert |v'.stack| > 0;
    assert Chain(Leave(v', required, now)) == v'.stack;
  }
}

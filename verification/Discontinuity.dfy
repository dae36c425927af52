/**
 Breaks in the timestamps of the scheduler: a timestamp that goes back, or that leaps more
 than two source frames ahead, starts the cadence afresh.
 */
module Discontinuity {
  import opened Common
  import opened Fractions
  import opened Scheduler
  import opened Cadence

  /** The last timestamp since the last reset. */
  function LastStamp(calls: seq<Call>): Option<int> {
    if calls == [] then None
    else
      match calls[|calls| - 1]
      case AdvanceAt(t) => Some(t)
      case Reset => None
      case _ => LastStamp(calls[..|calls| - 1])
  }

  lemma {:induction false} StampIsLast(p: Pace, calls: seq<Call>)
    requires ValidPace(p)
    ensures var f := After(p, FRESH, calls);
      (f.hasTimestamp <==> LastStamp(calls).Some?) && (f.hasTimestamp ==> f.timestamp == LastStamp(calls).value)
  {
    if calls != [] {
      StampIsLast(p, calls[..|calls| - 1]);
    }
  }

  /** After `calls`, timestamp `t` goes back, or takes the phase beyond two source frames. */
  ghost predicate IsBreak(p: Pace, calls: seq<Call>, t: int)
    requires ValidPace(p)
  {
    var last := LastStamp(calls);
    last.Some? && (t <= last.value || After(p, FRESH, calls).phase + Elapsed(p, last.value, t) > 2.0)
  }

  lemma BreakIsDiscontinuity(p: Pace, calls: seq<Call>, t: int)
    requires ValidPace(p)
    ensures IsBreak(p, calls, t) <==> IsDiscontinuity(p, After(p, FRESH, calls), t)
  {
    StampIsLast(p, calls);
  }

  /** Two schedulers whose next slots cannot be told apart. */
  ghost predicate SameCourse(f: Fields, g: Fields) {
    && f.phase == g.phase && f.previous == g.previous && f.hasPrevious == g.hasPrevious
    && f.timestamp == g.timestamp && f.hasTimestamp == g.hasTimestamp
  }

  lemma CourseStep(p: Pace, f: Fields, g: Fields, c: Call)
    requires ValidPace(p) && SameCourse(f, g)
    ensures SameCourse(Apply(p, f, c), Apply(p, g, c))
  {
  }

  lemma {:induction false} CourseStays(p: Pace, f: Fields, g: Fields, calls: seq<Call>)
    requires ValidPace(p) && SameCourse(f, g)
    ensures SameCourse(After(p, f, calls), After(p, g, calls))
  {
    if calls != [] {
      CourseStays(p, f, g, calls[..|calls| - 1]);
      CourseStep(p, After(p, f, calls[..|calls| - 1]), After(p, g, calls[..|calls| - 1]), calls[|calls| - 1]);
    }
  }

  lemma AfterOne(p: Pace, f: Fields, c: Call)
    requires ValidPace(p)
    ensures After(p, f, [c]) == Apply(p, f, c)
  {
    assert [c][..0] == [];
    assert After(p, f, []) == f;
  }

  lemma AfterMore(p: Pace, f: Fields, calls: seq<Call>, c: Call)
    requires ValidPace(p)
    ensures After(p, f, calls + [c]) == Apply(p, After(p, f, calls), c)
  {
    assert (calls + [c])[..|calls + [c]| - 1] == calls;
  }

  /** The first timestamp shows a REAL slot and leaves the phase alone. */
  lemma FirstTimestamp(p: Pace, calls: seq<Call>, t: int)
    requires ValidPace(p) && LastStamp(calls) == None
    ensures var f, g := After(p, FRESH, calls), After(p, FRESH, calls + [AdvanceAt(t)]);
      && g.phase == f.phase && g.previous == REAL && g.hasPrevious && g.hasTimestamp && g.timestamp == t
      && g.realSlots == f.realSlots + 1 && g.discontinuities == f.discontinuities
  {
    StampIsLast(p, calls);
    AfterMore(p, FRESH, calls, AdvanceAt(t));
  }

  /** The same in two steps: after a break, one REAL slot more and the course of a new scheduler. */
  lemma BreakRestarts(p: Pace, calls: seq<Call>, t: int)
    requires ValidPace(p) && IsBreak(p, calls, t)
    ensures var f, g := After(p, FRESH, calls), After(p, FRESH, calls + [AdvanceAt(t)]);
      && g.phase == 0.0 && g.previous == REAL && SameCourse(g, After(p, FRESH, [AdvanceAt(t)]))
      && g.realSlots == f.realSlots + 1 && g.discontinuities == f.discontinuities + 1
  {
    BreakIsDiscontinuity(p, calls, t);
    AfterMore(p, FRESH, calls, AdvanceAt(t));
    AfterOne(p, FRESH, AdvanceAt(t));
  }

  /**
   After a break a scheduler is as good as new: whatever calls follow, it shows the slots and
   phases of one that was made at that moment and whose first timestamp was `t`.
   */
  lemma BreakIsFreshStart(p: Pace, calls: seq<Call>, t: int, later: seq<Call>)
    requires ValidPace(p) && IsBreak(p, calls, t)
    ensures SameCourse(After(p, After(p, FRESH, calls + [AdvanceAt(t)]), later),
                       After(p, After(p, FRESH, [AdvanceAt(t)]), later))
  {
    BreakRestarts(p, calls, t);
    CourseStays(p, After(p, FRESH, calls + [AdvanceAt(t)]), After(p, FRESH, [AdvanceAt(t)]), later);
  }

  ghost predicate BreaksHere(p: Pace, calls: seq<Call>)
    requires ValidPace(p) && calls != []
  {
    var last := calls[|calls| - 1];
    last.AdvanceAt? && IsBreak(p, calls[..|calls| - 1], last.t)
  }

  /** The breaks since the last reset. */
  ghost function Breaks(p: Pace, calls: seq<Call>): nat
    requires ValidPace(p)
  {
    if calls == [] || calls[|calls| - 1].Reset? then 0
    else Breaks(p, calls[..|calls| - 1]) + (if BreaksHere(p, calls) then 1 else 0)
  }

  /** Slots shown since the last reset. */
  function SlotCalls(calls: seq<Call>): nat {
    if calls == [] || calls[|calls| - 1].Reset? then 0
    else SlotCalls(calls[..|calls| - 1]) + (if calls[|calls| - 1].SourceFrame? then 0 else 1)
  }

  /** The discontinuity counter counts exactly the breaks, and every slot is counted once as REAL or INTERPOLATED. */
  lemma {:induction false} CountersAreRight(p: Pace, calls: seq<Call>)
    requires ValidPace(p)
    ensures var f := After(p, FRESH, calls);
      f.discontinuities == Breaks(p, calls) && f.realSlots + f.interpolatedSlots == SlotCalls(calls)
  {
    if calls != [] {
      var init, last := calls[..|calls| - 1], calls[|calls| - 1];
      CountersAreRight(p, init);
      if last.AdvanceAt? {
        BreakIsDiscontinuity(p, init, last.t);
      }
    }
  }
}

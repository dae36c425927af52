/**
 What the scheduler promises over whole sequences of calls: slots follow the exact ratio
 of the rates without drift.
 */
module Cadence {
  import opened Common
  import opened Fractions
  import opened Scheduler

  datatype Call = Advance | AdvanceAt(t: int) | SourceFrame | Reset

  function Apply(p: Pace, f: Fields, c: Call): Fields
    requires ValidPace(p)
  {
    match c
    case Advance => Advanced(p, f)
    case AdvanceAt(t) => AdvancedAt(p, f, t)
    case SourceFrame => FrameAdvanced(p, f)
    case Reset => FRESH.(previous := f.previous)
  }

  function After(p: Pace, f: Fields, calls: seq<Call>): Fields
    requires ValidPace(p)
  {
    if calls == [] then f else Apply(p, After(p, f, calls[..|calls| - 1]), calls[|calls| - 1])
  }

  /** How many calls of `calls` equal `c`. */
  function Count(calls: seq<Call>, c: Call): nat {
    if calls == [] then 0
    else Count(calls[..|calls| - 1], c) + (if calls[|calls| - 1] == c then 1 else 0)
  }

  ghost predicate UntimedOnly(calls: seq<Call>) {
    forall k :: 0 <= k < |calls| ==> calls[k] == Advance || calls[k] == SourceFrame
  }

  function Ceil(x: real): int {
    -((-x).Floor)
  }

  // ----- Display slots -----------------------------------------------------------------

  /** The phase stays a fraction of one source frame under every sequence of calls. */
  lemma {:induction false} PhaseIsFraction(p: Pace, calls: seq<Call>)
    requires ValidPace(p)
    ensures 0.0 <= After(p, FRESH, calls).phase < 1.0
  {
    if calls != [] {
      PhaseIsFraction(p, calls[..|calls| - 1]);
      var f := After(p, FRESH, calls[..|calls| - 1]);
      match calls[|calls| - 1]
      case AdvanceAt(t) =>
        if f.hasTimestamp && t > f.timestamp {
          ElapsedPositive(p, t - f.timestamp);
        }
      case _ =>
    }
  }

  lemma ElapsedPositive(p: Pace, d: int)
    requires ValidPace(p) && d > 0
    ensures p.source * (d as real / NANOS) > 0.0
  {
  }

  /**
   No drift: from any phase, and with source frames handled in between, n advances give
   floor(phase + n * source / display) REAL slots and leave exactly the fraction behind.
   */
  lemma {:induction false} AdvancesDoNotDrift(p: Pace, f: Fields, calls: seq<Call>)
    requires ValidPace(p) && 0.0 <= f.phase < 1.0 && UntimedOnly(calls)
    ensures var n, g := Count(calls, Advance), After(p, f, calls);
      && g.realSlots - f.realSlots == (f.phase + Times(n, p.step)).Floor
      && g.phase == Frac(f.phase + Times(n, p.step))
      && g.realSlots + g.interpolatedSlots == f.realSlots + f.interpolatedSlots + n
  {
    if calls != [] {
      var init := calls[..|calls| - 1];
      var n, g := Count(init, Advance), After(p, f, init);
      AdvancesDoNotDrift(p, f, init);
      if calls[|calls| - 1] == Advance {
        var x := g.phase + p.step;
        var total := f.phase + Times(n + 1, p.step);
        FloorIs(total, g.realSlots - f.realSlots + (if x >= 1.0 then 1 else 0));
      }
    }
  }

  lemma AdvancesAddUp(p: Pace, calls: seq<Call>)
    requires ValidPace(p) && UntimedOnly(calls)
    ensures var g := After(p, FRESH, calls);
      g.realSlots as real + g.phase == Times(Count(calls, Advance), p.step) && 0.0 <= g.phase < 1.0
  {
    AdvancesDoNotDrift(p, FRESH, calls);
    PhaseIsFraction(p, calls);
  }

  /** Real slots plus phase is exactly n * source / display. */
  lemma CadenceIsExact(p: Pace, calls: seq<Call>)
    requires ValidPace(p) && UntimedOnly(calls)
    ensures var g := After(p, FRESH, calls);
      g.realSlots as real + g.phase == Product(Count(calls, Advance), p.step) && 0.0 <= g.phase < 1.0
  {
    AdvancesAddUp(p, calls);
    ProductIsTimes(Count(calls, Advance), p.step);
  }

  lemma FloorOfSum(a: real, b: real)
    requires 0.0 <= a < 1.0
    ensures b.Floor <= (a + b).Floor <= Ceil(b)
  {
  }

  /** Any w consecutive slots hold floor or ceil of w * source / display REAL ones. */
  lemma WindowsAreBalanced(p: Pace, before: seq<Call>, window: seq<Call>)
    requires ValidPace(p) && UntimedOnly(window)
    ensures var w := Times(Count(window, Advance), p.step);
      var seen := After(p, After(p, FRESH, before), window).realSlots - After(p, FRESH, before).realSlots;
      seen == w.Floor || seen == Ceil(w)
  {
    PhaseIsFraction(p, before);
    var f := After(p, FRESH, before);
    AdvancesDoNotDrift(p, f, window);
    FloorOfSum(f.phase, Times(Count(window, Advance), p.step));
  }

  /** The kind of the last slot is visible in the phase. */
  ghost predicate PreviousShows(p: Pace, f: Fields)
    requires ValidPace(p)
  {
    f.hasPrevious ==> if f.previous == REAL then f.phase < p.step else f.phase >= p.step
  }

  lemma {:induction false} UntimedPrevious(p: Pace, calls: seq<Call>)
    requires ValidPace(p) && UntimedOnly(calls)
    ensures PreviousShows(p, After(p, FRESH, calls))
  {
    if calls != [] {
      UntimedPrevious(p, calls[..|calls| - 1]);
      PhaseIsFraction(p, calls[..|calls| - 1]);
    }
  }

  /** A repeated kind is only ever the kind the ratio has more of. */
  lemma RepeatsFollowTheRatio(p: Pace, calls: seq<Call>)
    requires ValidPace(p) && UntimedOnly(calls)
    ensures var f := After(p, FRESH, calls); var g := Advanced(p, f);
      f.hasPrevious && g.previous == f.previous ==> if g.previous == REAL then p.step > 0.5 else p.step < 0.5
  {
    UntimedPrevious(p, calls);
    PhaseIsFraction(p, calls);
  }

  // ----- Timestamps --------------------------------------------------------------------

  function AtTimes(p: Pace, f: Fields, times: seq<int>): Fields {
    if times == [] then f else AdvancedAt(p, AtTimes(p, f, times[..|times| - 1]), times[|times| - 1])
  }

  ghost predicate Continuous(p: Pace, f: Fields, times: seq<int>)
    decreases |times|
  {
    times != [] ==>
      && Continuous(p, f, times[..|times| - 1])
      && !IsDiscontinuity(p, AtTimes(p, f, times[..|times| - 1]), times[|times| - 1])
  }

  /** How many timestamps land exactly two source frames ahead. */
  function DoubleSteps(p: Pace, f: Fields, times: seq<int>): nat {
    if times == [] then 0
    else
      var g := AtTimes(p, f, times[..|times| - 1]);
      DoubleSteps(p, f, times[..|times| - 1]) + (if PhaseAt(p, g, times[|times| - 1]) == 2.0 then 1 else 0)
  }

  lemma ElapsedAdds(source: real, a: int, b: int, c: int)
    ensures source * ((c - a) as real / NANOS)
         == source * ((b - a) as real / NANOS) + source * ((c - b) as real / NANOS)
  {
    assert (c - a) as real / NANOS == (b - a) as real / NANOS + (c - b) as real / NANOS;
  }

  function Last(t: int, times: seq<int>): int {
    if times == [] then t else times[|times| - 1]
  }

  /** One continuous timestamp: the phase carries exactly what was not shown as REAL. */
  lemma TimestampStep(p: Pace, f: Fields, t: int)
    requires ValidPace(p) && f.hasTimestamp && 0.0 <= f.phase < 1.0 && !IsDiscontinuity(p, f, t)
    ensures var g := AdvancedAt(p, f, t);
      && 0.0 <= g.phase < 1.0 && g.hasTimestamp && g.timestamp == t
      && PhaseAt(p, f, t)
         == (g.realSlots - f.realSlots) as real + g.phase + (if PhaseAt(p, f, t) == 2.0 then 1.0 else 0.0)
  {
    ElapsedPositive(p, t - f.timestamp);
    var x := PhaseAt(p, f, t);
    if 1.0 <= x < 2.0 {
      FloorIs(x, 1);
    } else if x == 2.0 {
      FloorIs(x, 2);
    }
  }

  /**
   Timestamps conserve source time: over any continuous stretch, the source frames that
   elapsed are those shown as REAL, plus the change of phase, plus one frame lost for each
   step of exactly two source frames. So nothing is lost if and only if no step is that long.
   */
  lemma {:induction false} TimestampsConserveTime(p: Pace, f: Fields, times: seq<int>)
    requires ValidPace(p) && f.hasTimestamp && 0.0 <= f.phase < 1.0 && Continuous(p, f, times)
    ensures var g := AtTimes(p, f, times);
      && 0.0 <= g.phase < 1.0 && g.hasTimestamp && g.timestamp == Last(f.timestamp, times)
      && g.realSlots >= f.realSlots
      && Elapsed(p, f.timestamp, g.timestamp)
         == (g.realSlots - f.realSlots) as real + (g.phase - f.phase) + DoubleSteps(p, f, times) as real
  {
    if times == [] {
      assert (f.timestamp - f.timestamp) as real / NANOS == 0.0;
    } else {
      var init := times[..|times| - 1];
      TimestampsConserveTime(p, f, init);
      ConserveStep(p, f, AtTimes(p, f, init), times[|times| - 1]);
    }
  }

  /** What one more timestamp adds to both sides of the account. */
  lemma ConserveStep(p: Pace, f: Fields, g: Fields, t: int)
    requires ValidPace(p) && g.hasTimestamp && 0.0 <= g.phase < 1.0 && !IsDiscontinuity(p, g, t)
    ensures var h := AdvancedAt(p, g, t);
      && 0.0 <= h.phase < 1.0 && h.hasTimestamp && h.timestamp == t && h.realSlots >= g.realSlots
      && Elapsed(p, f.timestamp, t) == Elapsed(p, f.timestamp, g.timestamp)
         + (h.realSlots - g.realSlots) as real + (h.phase - g.phase) + (if PhaseAt(p, g, t) == 2.0 then 1.0 else 0.0)
  {
    TimestampStep(p, g, t);
    ElapsedAdds(p.source, f.timestamp, g.timestamp, t);
  }

  /** Elapsed frames are seconds times the source rate, with timestamps in nanoseconds. */
  lemma ElapsedIs(p: Pace, t0: int, t1: int)
    ensures Elapsed(p, t0, t1) * 1000000000.0 == p.source * (t1 - t0) as real
  {
    var d := (t1 - t0) as real;
    assert d / NANOS * 1000000000.0 == d;
  }

  lemma ExampleElapsed(p: Pace)
    requires p.source == 2.0
    ensures Elapsed(p, 0, 250000000) == 0.5 && Elapsed(p, 250000000, 1000000000) == 1.5
  {
    assert 250000000.0 / NANOS == 0.25 && 750000000.0 / NANOS == 0.75;
  }

  /** Reachable by the calls that follow: a phase of one half at 0.25 seconds. */
  lemma ExamplePhase(p: Pace)
    requires ValidPace(p) && p.source == 2.0
    ensures var f := After(p, FRESH, [AdvanceAt(0), AdvanceAt(250000000)]);
      f.phase == 0.5 && f.hasTimestamp && f.timestamp == 250000000
  {
    ExampleElapsed(p);
    AfterTwo(p, FRESH, AdvanceAt(0), AdvanceAt(250000000));
    var e := AdvancedAt(p, FRESH, 0);
    assert e.hasTimestamp && e.timestamp == 0 && e.phase == 0.0;
    assert PhaseAt(p, e, 250000000) == 0.5;
  }

  lemma LandsOnTwo(p: Pace, f: Fields, t: int)
    requires f.hasTimestamp && t > f.timestamp && PhaseAt(p, f, t) == 2.0
    ensures !IsDiscontinuity(p, f, t)
    ensures AdvancedAt(p, f, t).realSlots == f.realSlots + 1 && AdvancedAt(p, f, t).phase == 0.0
  {
    FloorIs(2.0, 2);
  }

  /**
   The lost frame is real, and the phase before matters: at 2 Hz a timestamp 0.75 seconds, one
   and a half source frames, after a phase of one half shows one frame and keeps no phase.
   */
  lemma DoubleStepLosesFrame(p: Pace)
    requires ValidPace(p) && p.source == 2.0
    ensures var f := After(p, FRESH, [AdvanceAt(0), AdvanceAt(250000000)]);
      var g := After(p, FRESH, [AdvanceAt(0), AdvanceAt(250000000), AdvanceAt(1000000000)]);
      && f.phase == 0.5 && !IsDiscontinuity(p, f, 1000000000) && Elapsed(p, f.timestamp, 1000000000) == 1.5
      && g.realSlots == f.realSlots + 1 && g.phase == 0.0
  {
    var calls := [AdvanceAt(0), AdvanceAt(250000000), AdvanceAt(1000000000)];
    ExamplePhase(p);
    ExampleElapsed(p);
    AfterLast(p, FRESH, calls);
    assert calls[..2] == [AdvanceAt(0), AdvanceAt(250000000)];
    LandsOnTwo(p, After(p, FRESH, calls[..2]), 1000000000);
  }

  lemma AfterLast(p: Pace, f: Fields, calls: seq<Call>)
    requires ValidPace(p) && calls != []
    ensures After(p, f, calls) == Apply(p, After(p, f, calls[..|calls| - 1]), calls[|calls| - 1])
  {
  }

  lemma AfterTwo(p: Pace, f: Fields, c: Call, d: Call)
    requires ValidPace(p)
    ensures After(p, f, [c, d]) == Apply(p, Apply(p, f, c), d)
  {
    assert [c, d][..1] == [c] && [c][..0] == [];
    assert After(p, f, [c]) == Apply(p, After(p, f, []), c);
  }

  // ----- Source frames -----------------------------------------------------------------

  /** Slots given to the source frames among `calls`. */
  function SlotsGiven(p: Pace, f: Fields, calls: seq<Call>): int
    requires ValidPace(p)
  {
    if calls == [] then 0
    else
      var init := calls[..|calls| - 1];
      SlotsGiven(p, f, init) + (if calls[|calls| - 1] == SourceFrame then FrameSlots(p, After(p, f, init)) else 0)
  }

  /** Under the double rate the clamp never acts. */
  lemma ClampIsIdentity(p: Pace, phase: real)
    requires ValidPace(p) && 0.0 <= phase <= 1.0 && p.ratio < 2.0
    ensures 1 <= (phase + p.ratio).Floor <= 2
  {
  }

  lemma SlotStep(start: real, ratio: real, n: nat, given: int, phase: real)
    requires given as real + phase == start + Times(n, ratio)
    ensures (start + Times(n + 1, ratio)).Floor == given + (phase + ratio).Floor
    ensures Frac(start + Times(n + 1, ratio)) == Frac(phase + ratio)
  {
    assert start + Times(n + 1, ratio) == given as real + (phase + ratio);
    FloorIs(start + Times(n + 1, ratio), given + (phase + ratio).Floor);
  }

  /** From any phase, source frames get floor(phase + n * display / source) slots when display < 2 * source. */
  lemma {:induction false} SlotsDoNotDrift(p: Pace, f: Fields, calls: seq<Call>)
    requires ValidPace(p) && 0.0 <= f.slotPhase <= 1.0 && p.ratio < 2.0 && UntimedOnly(calls)
    ensures var n, g := Count(calls, SourceFrame), After(p, f, calls);
      if n == 0 then SlotsGiven(p, f, calls) == 0 && g.slotPhase == f.slotPhase && g.adjustments == f.adjustments else
      && SlotsGiven(p, f, calls) == (f.slotPhase + Times(n, p.ratio)).Floor
      && g.slotPhase == Frac(f.slotPhase + Times(n, p.ratio))
      && g.adjustments - f.adjustments == 2 * n - SlotsGiven(p, f, calls)
  {
    if calls != [] {
      var init := calls[..|calls| - 1];
      var n, g := Count(init, SourceFrame), After(p, f, init);
      SlotsDoNotDrift(p, f, init);
      if calls[|calls| - 1] == SourceFrame {
        ClampIsIdentity(p, g.slotPhase);
        SlotStep(f.slotPhase, p.ratio, n, SlotsGiven(p, f, init), g.slotPhase);
      }
    }
  }

  /** At double rate or more every frame gets exactly two slots. */
  lemma {:induction false} SlotsSaturate(p: Pace, f: Fields, calls: seq<Call>)
    requires ValidPace(p) && 0.0 <= f.slotPhase <= 1.0 && p.ratio >= 2.0 && UntimedOnly(calls)
    ensures var n, g := Count(calls, SourceFrame), After(p, f, calls);
      && SlotsGiven(p, f, calls) == 2 * n && 0.0 <= g.slotPhase <= 1.0 && g.adjustments == f.adjustments
      && g.slotPhase == if n == 0 then f.slotPhase else Frac(f.slotPhase + Times(n, p.ratio))
  {
    if calls != [] {
      var init := calls[..|calls| - 1];
      var n, g := Count(init, SourceFrame), After(p, f, init);
      SlotsSaturate(p, f, init);
      if calls[|calls| - 1] == SourceFrame && n > 0 {
        var whole := (f.slotPhase + Times(n, p.ratio)).Floor;
        SlotStep(f.slotPhase, p.ratio, n, whole, g.slotPhase);
      }
    }
  }

  /**
   From a fresh scheduler, n >= 1 source frames get 1 + floor(n * display / source) slots
   in total if and only if the display rate is under twice the source rate. The number of
   one-slot adjustments is then 2n minus that total.
   */
  lemma SlotTotalIff(p: Pace, calls: seq<Call>)
    requires ValidPace(p) && UntimedOnly(calls) && Count(calls, SourceFrame) >= 1
    ensures var n := Count(calls, SourceFrame);
      SlotsGiven(p, FRESH, calls) == 1 + (Times(n, p.ratio)).Floor <==> p.ratio < 2.0
    ensures p.ratio < 2.0 ==>
      After(p, FRESH, calls).adjustments == 2 * Count(calls, SourceFrame) - SlotsGiven(p, FRESH, calls)
    ensures p.ratio >= 2.0 ==> SlotsGiven(p, FRESH, calls) == 2 * Count(calls, SourceFrame)
  {
    var n := Count(calls, SourceFrame);
    var x := Times(n, p.ratio);
    if p.ratio < 2.0 {
      SlotsDoNotDrift(p, FRESH, calls);
      FloorIs(1.0 + x, 1 + x.Floor);
    } else {
      SlotsSaturate(p, FRESH, calls);
      TimesAtLeast(n, p.ratio);
      assert x.Floor >= 2 * n;
    }
  }

  // ----- Calls of different kinds ------------------------------------------------------

  /** The calls that concern source frames, or those that concern display slots; resets concern both. */
  function Only(calls: seq<Call>, frames: bool): seq<Call> {
    if calls == [] then []
    else
      var last := calls[|calls| - 1];
      var concerned := last.Reset? || last.SourceFrame? == frames;
      Only(calls[..|calls| - 1], frames) + (if concerned then [last] else [])
  }

  /** The part of the fields that source frames read, and the part that display slots read. */
  predicate SameFrames(f: Fields, g: Fields) {
    f.slotPhase == g.slotPhase && f.adjustments == g.adjustments
  }

  predicate SameSlots(f: Fields, g: Fields) {
    f == g.(slotPhase := f.slotPhase, adjustments := f.adjustments)
  }

  lemma FramesStep(p: Pace, f: Fields, g: Fields, c: Call)
    requires ValidPace(p) && SameFrames(f, g)
    ensures SameFrames(Apply(p, f, c), if c.Reset? || c.SourceFrame? then Apply(p, g, c) else g)
  {
  }

  lemma SlotsStep(p: Pace, f: Fields, g: Fields, c: Call)
    requires ValidPace(p) && SameSlots(f, g)
    ensures SameSlots(Apply(p, f, c), if c.SourceFrame? then g else Apply(p, g, c))
  {
  }

  /** Source frames and display slots do not interfere: each course is as if the other had not been run. */
  lemma {:induction false} CoursesAreIndependent(p: Pace, f: Fields, calls: seq<Call>)
    requires ValidPace(p)
    ensures SameFrames(After(p, f, calls), After(p, f, Only(calls, true)))
    ensures SameSlots(After(p, f, calls), After(p, f, Only(calls, false)))
  {
    if calls != [] {
      var init, last := calls[..|calls| - 1], calls[|calls| - 1];
      CoursesAreIndependent(p, f, init);
      FramesStep(p, After(p, f, init), After(p, f, Only(init, true)), last);
      SlotsStep(p, After(p, f, init), After(p, f, Only(init, false)), last);
      OnlyMore(p, f, calls, true);
      OnlyMore(p, f, calls, false);
    }
  }

  lemma OnlyMore(p: Pace, f: Fields, calls: seq<Call>, frames: bool)
    requires ValidPace(p) && calls != []
    ensures var init, last := calls[..|calls| - 1], calls[|calls| - 1];
      var before := After(p, f, Only(init, frames));
      After(p, f, Only(calls, frames)) ==
        if last.Reset? || last.SourceFrame? == frames then Apply(p, before, last) else before
  {
    AfterMaybe(p, f, Only(calls[..|calls| - 1], frames), calls[|calls| - 1]);
  }

  lemma AfterMaybe(p: Pace, f: Fields, calls: seq<Call>, c: Call)
    requires ValidPace(p)
    ensures After(p, f, calls + [c]) == Apply(p, After(p, f, calls), c) && calls + [] == calls
  {
    assert (calls + [c])[..|calls + [c]| - 1] == calls;
  }

  /** The kind of the last slot since the last reset: REAL if the count of REAL slots grew. */
  function LastKind(p: Pace, calls: seq<Call>): Option<Kind>
    requires ValidPace(p)
  {
    if calls == [] || calls[|calls| - 1].Reset? then None
    else
      var init := calls[..|calls| - 1];
      if calls[|calls| - 1].SourceFrame? then LastKind(p, init)
      else Some(if After(p, FRESH, calls).realSlots > After(p, FRESH, init).realSlots then REAL else INTERPOLATED)
  }

  /** The kind a slot is compared with, to tell a repeat, is that of the slot before it. */
  lemma {:induction false} PreviousIsLastKind(p: Pace, calls: seq<Call>)
    requires ValidPace(p)
    ensures var f := After(p, FRESH, calls);
      (f.hasPrevious <==> LastKind(p, calls).Some?) && (f.hasPrevious ==> Some(f.previous) == LastKind(p, calls))
  {
    if calls != [] {
      PreviousIsLastKind(p, calls[..|calls| - 1]);
    }
  }

  /** Equal, except perhaps for a previous kind that nothing will read. */
  ghost predicate SameButUnread(f: Fields, g: Fields) {
    f == g || (!g.hasPrevious && f == g.(previous := f.previous))
  }

  /** A reset scheduler behaves as a fresh one under every sequence of calls. */
  lemma {:induction false} ResetIsFresh(p: Pace, f: Fields, calls: seq<Call>)
    requires ValidPace(p)
    ensures SameButUnread(After(p, Apply(p, f, Reset), calls), After(p, FRESH, calls))
  {
    if calls != [] {
      ResetIsFresh(p, f, calls[..|calls| - 1]);
    }
  }
}

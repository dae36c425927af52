/**
 The temporal scheduler: a fractional phase accumulator that spreads source frames over
 display slots. Rates and phases are exact reals.
 */
module Scheduler {
  import opened Common
  import opened Fractions

  datatype Kind = INTERPOLATED | REAL

  datatype Slot = Slot(kind: Kind, adjusts: bool, phaseAfter: real)

  datatype FrameCadence = FrameCadence(slots: int, submitInterpolated: bool, adjusts: bool, phaseAfter: real)

  /** The rates of a scheduler; the constructor refuses any others. */
  datatype Rates = Rates(source: real, display: real)

  predicate ValidRates(r: Rates) {
    0.0 < r.source <= r.display
  }

  /** What one call adds to a phase: source/display per slot, display/source per frame, source per second. */
  datatype Pace = Pace(step: real, ratio: real, source: real)

  predicate ValidPace(p: Pace) {
    0.0 < p.step <= 1.0 && p.ratio >= 1.0 && p.source > 0.0
  }

  function PaceOf(r: Rates): (p: Pace)
    requires ValidRates(r)
    ensures ValidPace(p)
    ensures p.step * r.display == r.source && p.ratio * r.source == r.display && p.source == r.source
  {
    QuotientBounds(r.source, r.display);
    QuotientTimes(r.source, r.display);
    QuotientTimes(r.display, r.source);
    Pace(r.source / r.display, r.display / r.source, r.source)
  }

  /** The fields that calls update. */
  datatype Fields = Fields(
    phase: real,
    previous: Kind,
    hasPrevious: bool,
    timestamp: int,
    hasTimestamp: bool,
    realSlots: nat,
    interpolatedSlots: nat,
    discontinuities: nat,
    slotPhase: real,
    adjustments: nat)

  const FRESH := Fields(0.0, INTERPOLATED, false, 0, false, 0, 0, 0, 1.0, 0)

  const NANOS := 1000000000.0

  // ----- One call, as a function of the fields -----------------------------------------

  /** Enter a slot of the given kind. */
  function Enter(f: Fields, kind: Kind, phase: real): Fields {
    if kind == REAL then f.(phase := phase, previous := kind, hasPrevious := true, realSlots := f.realSlots + 1)
    else f.(phase := phase, previous := kind, hasPrevious := true, interpolatedSlots := f.interpolatedSlots + 1)
  }

  function KindAt(x: real): Kind {
    if x >= 1.0 then REAL else INTERPOLATED
  }

  function Advanced(p: Pace, f: Fields): Fields
  {
    var x := f.phase + p.step;
    Enter(f, KindAt(x), if x >= 1.0 then x - 1.0 else x)
  }

  /** Source frames that elapse between two timestamps. */
  function Elapsed(p: Pace, t0: int, t1: int): real {
    p.source * ((t1 - t0) as real / NANOS)
  }

  /** Where a timestamp puts the phase, before it is judged. */
  function PhaseAt(p: Pace, f: Fields, t: int): real {
    f.phase + Elapsed(p, f.timestamp, t)
  }

  predicate IsDiscontinuity(p: Pace, f: Fields, t: int) {
    f.hasTimestamp && (t <= f.timestamp || PhaseAt(p, f, t) > 2.0)
  }

  function AdvancedAt(p: Pace, f: Fields, t: int): Fields {
    var f1 := f.(timestamp := t, hasTimestamp := true);
    if !f.hasTimestamp then Enter(f1, REAL, f.phase)
    else if IsDiscontinuity(p, f, t) then Enter(f1, REAL, 0.0).(discontinuities := f.discontinuities + 1)
    else
      var x := PhaseAt(p, f, t);
      Enter(f1, KindAt(x), if x >= 1.0 then Frac(x) else x)
  }

  /** The slots given to the next source frame. */
  function FrameSlots(p: Pace, f: Fields): int
  {
    Clamp((f.slotPhase + p.ratio).Floor, 1, 2)
  }

  function FrameAdvanced(p: Pace, f: Fields): Fields
  {
    f.(slotPhase := Frac(f.slotPhase + p.ratio),
       adjustments := if FrameSlots(p, f) == 1 then f.adjustments + 1 else f.adjustments)
  }

  // ----- The object --------------------------------------------------------------------

  class TemporalScheduler {
    const rates: Rates
    var phase: real
    var hasPreviousKind: bool
    var previousKind: Kind
    var hasTimestamp: bool
    var previousTimestampNs: int
    var realSlots: nat
    var interpolatedSlots: nat
    var timestampDiscontinuities: nat
    var sourceSlotPhase: real
    var cadenceAdjustments: nat

    function Value(): Fields
      reads this
    {
      Fields(phase, previousKind, hasPreviousKind, previousTimestampNs, hasTimestamp, realSlots, interpolatedSlots,
        timestampDiscontinuities, sourceSlotPhase, cadenceAdjustments)
    }

    /** The source throws on rates outside 0 < source <= display; see `NewScheduler`. */
    constructor (rates: Rates)
      requires ValidRates(rates)
      ensures this.rates == rates && Value() == FRESH
    {
      this.rates := rates;
      phase, hasPreviousKind, previousKind := 0.0, false, INTERPOLATED;
      hasTimestamp, previousTimestampNs := false, 0;
      realSlots, interpolatedSlots, timestampDiscontinuities := 0, 0, 0;
      sourceSlotPhase, cadenceAdjustments := 1.0, 0;
    }

    method Advance() returns (slot: Slot)
      requires ValidRates(rates)
      modifies this
      ensures Value() == Advanced(PaceOf(rates), old(Value()))
      ensures slot.kind == REAL <==> realSlots == old(realSlots) + 1
      ensures slot.adjusts <==> old(hasPreviousKind) && old(previousKind) == slot.kind
      ensures slot.phaseAfter == phase
    {
      phase := phase + rates.source / rates.display;
      var kind := INTERPOLATED;
      if phase >= 1.0 {
        phase := phase - 1.0;
        kind := REAL;
        realSlots := realSlots + 1;
      } else {
        interpolatedSlots := interpolatedSlots + 1;
      }
      var adjustment := hasPreviousKind && previousKind == kind;
      previousKind := kind;
      hasPreviousKind := true;
      slot := Slot(kind, adjustment, phase);
    }

    method AdvanceAt(t: int) returns (slot: Slot)
      requires ValidRates(rates)
      modifies this
      ensures Value() == AdvancedAt(PaceOf(rates), old(Value()), t)
      ensures slot.kind == REAL <==> realSlots == old(realSlots) + 1
      ensures slot.adjusts <==> (
        && old(hasTimestamp) && !IsDiscontinuity(PaceOf(rates), old(Value()), t)
        && old(hasPreviousKind) && old(previousKind) == slot.kind)
      ensures slot.phaseAfter == phase
    {
      if !hasTimestamp {
        previousTimestampNs := t;
        hasTimestamp := true;
        previousKind, hasPreviousKind := REAL, true;
        realSlots := realSlots + 1;
        return Slot(REAL, false, phase);
      }
      if t <= previousTimestampNs {
        timestampDiscontinuities := timestampDiscontinuities + 1;
        phase := 0.0;
        previousTimestampNs := t;
        previousKind, hasPreviousKind := REAL, true;
        realSlots := realSlots + 1;
        return Slot(REAL, false, phase);
      }
      ghost var x := PhaseAt(PaceOf(rates), Value(), t);
      var deltaSeconds := (t - previousTimestampNs) as real / NANOS;
      previousTimestampNs := t;
      phase := phase + rates.source * deltaSeconds;
      assert phase == x;
      if phase > 2.0 {
        timestampDiscontinuities := timestampDiscontinuities + 1;
        phase := 0.0;
        previousKind, hasPreviousKind := REAL, true;
        realSlots := realSlots + 1;
        return Slot(REAL, false, phase);
      }
      var kind := INTERPOLATED;
      if phase >= 1.0 {
        phase := phase - phase.Floor as real;
        kind := REAL;
        realSlots := realSlots + 1;
      } else {
        interpolatedSlots := interpolatedSlots + 1;
      }
      var adjustment := hasPreviousKind && previousKind == kind;
      previousKind := kind;
      hasPreviousKind := true;
      slot := Slot(kind, adjustment, phase);
    }

    method AdvanceSourceFrame() returns (cadence: FrameCadence)
      requires ValidRates(rates)
      modifies this
      ensures Value() == FrameAdvanced(PaceOf(rates), old(Value()))
      ensures cadence.slots == FrameSlots(PaceOf(rates), old(Value())) && 1 <= cadence.slots <= 2
      ensures cadence.submitInterpolated <==> cadence.slots == 2
      ensures cadence.adjusts <==> cadenceAdjustments == old(cadenceAdjustments) + 1
      ensures cadence.adjusts <==> cadence.slots == 1
      ensures cadence.phaseAfter == sourceSlotPhase
    {
      sourceSlotPhase := sourceSlotPhase + rates.display / rates.source;
      var slots := sourceSlotPhase.Floor;
      sourceSlotPhase := sourceSlotPhase - slots as real;
      slots := Clamp(slots, 1, 2);
      var adjustment := slots == 1;
      if adjustment {
        cadenceAdjustments := cadenceAdjustments + 1;
      }
      cadence := FrameCadence(slots, slots == 2, adjustment, sourceSlotPhase);
    }

    /** The previous kind is not cleared; nothing reads it until a call sets it again. */
    method Reset()
      modifies this
      ensures Value() == FRESH.(previous := old(previousKind))
    {
      phase := 0.0;
      hasPreviousKind := false;
      hasTimestamp := false;
      previousTimestampNs := 0;
      realSlots := 0;
      interpolatedSlots := 0;
      timestampDiscontinuities := 0;
      sourceSlotPhase := 1.0;
      cadenceAdjustments := 0;
    }
  }

  datatype Creation = InvalidArgument | Created(scheduler: TemporalScheduler)

  method NewScheduler(rates: Rates) returns (r: Creation)
    ensures r.Created? <==> 0.0 < rates.source <= rates.display
    ensures r.Created? ==> fresh(r.scheduler) && r.scheduler.rates == rates && r.scheduler.Value() == FRESH
  {
    if rates.source <= 0.0 || rates.display <= 0.0 || rates.source > rates.display {
      return InvalidArgument;
    }
    var scheduler := new TemporalScheduler(rates);
    r := Created(scheduler);
  }
}
